/** Per-plugin counts of the requests inside a plugin. */
module InFlight {
  type Counts = map<string, nat>

  function Count(counts: Counts, plugin: string): nat {
    if plugin in counts then counts[plugin] else 0
  }

  function Entered(counts: Counts, plugin: string): Counts {
    counts[plugin := Count(counts, plugin) + 1]
  }

  /** What dropping a guard does: one less, and an entry that reaches zero is removed. */
  function Left(counts: Counts, plugin: string): Counts {
    if plugin !in counts then counts
    else if counts[plugin] <= 1 then counts - {plugin}
    else counts[plugin := counts[plugin] - 1]
  }

  /** The requests inside each plugin. */
  type Inside = map<nat, string>

  function Of(inside: Inside, plugin: string): set<nat> {
    set r | r in inside && inside[r] == plugin
  }

  /** Every count is the number of guards alive, and no entry is kept at zero. */
  ghost predicate Tallies(counts: Counts, inside: Inside) {
    && (forall plugin :: Count(counts, plugin) == |Of(inside, plugin)|)
    && (forall plugin :: plugin in counts ==> counts[plugin] > 0)
  }

  lemma EnterTallies(counts: Counts, inside: Inside, request: nat, plugin: string)
    requires Tallies(counts, inside) && request !in inside
    ensures Tallies(Entered(counts, plugin), inside[request := plugin])
  {
    forall p
      ensures Count(Entered(counts, plugin), p) == |Of(inside[request := plugin], p)|
    {
      if p == plugin {
        assert Of(inside[request := plugin], p) == Of(inside, p) + {request};
      } else {
        assert Of(inside[request := plugin], p) == Of(inside, p);
      }
    }
  }

  lemma LeaveTallies(counts: Counts, inside: Inside, request: nat)
    requires Tallies(counts, inside) && request in inside
    ensures Tallies(Left(counts, inside[request]), inside - {request})
  {
    var plugin := inside[request];
    assert request in Of(inside, plugin);
    assert Count(counts, plugin) == |Of(inside, plugin)|;
    forall p
      ensures Count(Left(counts, plugin), p) == |Of(inside - {request}, p)|
    {
      if p == plugin {
        assert Of(inside - {request}, p) == Of(inside, p) - {request};
      } else {
        assert Of(inside - {request}, p) == Of(inside, p);
      }
    }
  }

  class InFlight {
    var counts: Counts

    constructor ()
      ensures counts == map[]
    {
      counts := map[];
    }

    method Enter(plugin: string)
      modifies this
      ensures counts == Entered(old(counts), plugin)
      ensures counts == old(counts)[plugin := (if plugin in old(counts) then old(counts)[plugin] else 0) + 1]
    {
      if plugin !in counts {
        counts := counts[plugin := 0];
      }
      counts := counts[plugin := counts[plugin] + 1];
    }

    method Drop(plugin: string)
      modifies this
      ensures counts == Left(old(counts), plugin)
      ensures plugin !in old(counts) ==> counts == old(counts)
      ensures plugin in old(counts) && old(counts)[plugin] > 1 ==>
                counts == old(counts)[plugin := old(counts)[plugin] - 1]
      ensures plugin in old(counts) && old(counts)[plugin] <= 1 ==> counts == old(counts) - {plugin}
    {
      if plugin in counts {
        var n := if counts[plugin] > 0 then counts[plugin] - 1 else 0;
        counts := counts[plugin := n];
        if n == 0 {
          counts := counts - {plugin};
        }
      }
    }
  }
}
