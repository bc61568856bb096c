/** The identity providers plugins register, and which of them answer. */
module IdentityHub {
  /** Providers by owner, and the owners that were switched off. */
  datatype Hub = Hub(providers: map<string, nat>, disabled: set<string>)

  function Enabled(hub: Hub): set<string> {
    hub.providers.Keys - hub.disabled
  }

  function Registered(hub: Hub, owner: string, provider: nat): Hub {
    hub.(providers := hub.providers[owner := provider])
  }

  function Switched(hub: Hub, owner: string, on: bool): Hub {
    hub.(disabled := if on then hub.disabled - {owner} else hub.disabled + {owner})
  }

  function Removed(hub: Hub, owner: string): Hub {
    Hub(hub.providers - {owner}, hub.disabled - {owner})
  }

  function Retained(hub: Hub, live: set<string>): Hub {
    Hub(map owner | owner in hub.providers && owner in live :: hub.providers[owner], hub.disabled * live)
  }

  /** What each change does to the providers that answer. */
  lemma ChangesToEnabled(hub: Hub, owner: string, provider: nat, live: set<string>)
    ensures Enabled(Registered(hub, owner, provider)) == Enabled(hub) + ({owner} - hub.disabled)
    ensures Enabled(Switched(hub, owner, false)) == Enabled(hub) - {owner}
    ensures Enabled(Switched(hub, owner, true)) == Enabled(hub) + ({owner} * hub.providers.Keys)
    ensures Enabled(Removed(hub, owner)) == Enabled(hub) - {owner}
    ensures Enabled(Retained(hub, live)) == Enabled(hub) * live
  {
  }

  lemma OnlyIs(s: set<string>, owner: string)
    ensures s == {owner} <==> forall other :: other in s <==> other == owner
  {
  }

  class IdentityHub {
    var providers: map<string, nat>
    var disabled: set<string>

    constructor ()
      ensures Value() == Hub(map[], {})
    {
      providers, disabled := map[], {};
    }

    function Value(): Hub
      reads this
    {
      Hub(providers, disabled)
    }

    /** A second registration by the same owner replaces the first, and does not switch it on. */
    method Register(owner: string, provider: nat)
      modifies this
      ensures Value() == Registered(old(Value()), owner, provider)
      ensures providers == old(providers)[owner := provider] && disabled == old(disabled)
      ensures Enabled(Value()) == old(Enabled(Value())) + ({owner} - old(disabled))
    {
      ChangesToEnabled(Value(), owner, provider, {});
      providers := providers[owner := provider];
    }

    method SetEnabled(owner: string, on: bool)
      modifies this
      ensures Value() == Switched(old(Value()), owner, on)
      ensures providers == old(providers)
      ensures forall other :: other in disabled <==> if other == owner then !on else other in old(disabled)
      ensures Enabled(Value()) ==
              if on then old(Enabled(Value())) + ({owner} * providers.Keys) else old(Enabled(Value())) - {owner}
    {
      ChangesToEnabled(Value(), owner, 0, {});
      if on {
        disabled := disabled - {owner};
      } else {
        disabled := disabled + {owner};
      }
    }

    method Remove(owner: string)
      modifies this
      ensures Value() == Removed(old(Value()), owner)
      ensures providers == old(providers) - {owner} && disabled == old(disabled) - {owner}
      ensures Enabled(Value()) == old(Enabled(Value())) - {owner}
    {
      ChangesToEnabled(Value(), owner, 0, {});
      disabled := disabled - {owner};
      providers := providers - {owner};
    }

    method Retain(live: set<string>)
      modifies this
      ensures Value() == Retained(old(Value()), live)
      ensures forall other :: other in providers <==> other in old(providers) && other in live
      ensures forall other :: other in providers ==> providers[other] == old(providers)[other]
      ensures forall other :: other in disabled <==> other in old(disabled) && other in live
      ensures Enabled(Value()) == old(Enabled(Value())) * live
    {
      ChangesToEnabled(Value(), "", 0, live);
      providers := map owner | owner in providers && owner in live :: providers[owner];
      disabled := disabled * live;
    }

    /** True exactly when `owner` is the one provider that answers. */
    method IsSoleEnabledProvider(owner: string) returns (sole: bool)
      ensures sole <==> Enabled(Value()) == {owner}
      ensures sole <==> forall other :: other in providers && other !in disabled <==> other == owner
    {
      var enabled := providers.Keys - disabled;
      OnlyIs(enabled, owner);
      assert forall other :: other in enabled <==> other in providers && other !in disabled;
      if enabled == {} {
        return false;
      }
      var first :| first in enabled;
      var others := enabled - {first};
      assert enabled == others + {first};
      sole := others == {} && first == owner;
    }
  }
}
