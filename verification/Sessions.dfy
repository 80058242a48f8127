/** Dialling and upgrading over one fingerprint exchange. */
module Sessions {
  import opened Wrappers
  import opened Fingerprint
  import opened Addresses
  import opened Handshake
  import opened Exchange

  /** The exchange of a dialer that dials `dialled` and a listener that upgrades `upgraded`: each is promised
      the fingerprint that its address carries. */
  ghost function Begin(dialer: Hash, listener: Hash, dialled: Multiaddr, upgraded: Multiaddr): Pair
    requires Diallable(dialled) && Upgradable(upgraded)
  {
    Pair(Fresh(ToString(dialer), ToString(dialled[2].hash)),
         Fresh(ToString(listener), ToString(LastHash(upgraded).value)))
  }

  /** The text one side's buffer holds when it is full, at the time of its comparison. */
  ghost predicate ReadsAt(states: seq<Pair>, i: nat, who: Party, env: Environment) {
    i < |states| && Exchange.Enabled(states[i], Compare(who)) && env.received == Some(states[i].Get(who).got)
  }

  /** Dialling succeeds over an exchange exactly if its own `write` was complete, the dialled address carries the
      listener's own fingerprint and names the peer that Noise authenticated. */
  lemma DialSucceedsExactly(dialer: Hash, listener: Hash, dialled: Multiaddr, upgraded: Multiaddr, env: Environment,
                            steps: seq<Step>, states: seq<Pair>, i: nat)
    requires Diallable(dialled) && Upgradable(upgraded)
    requires Run(Begin(dialer, listener, dialled, upgraded), steps, states) && ReadsAt(states, i, Dialer, env)
    ensures DialSucceeds(dialled, env) <==>
      && env.connection && env.channel && LastPeer(dialled) == Some(env.peer)
      && states[i].dialer.wrote == 95 && dialled[2].hash == listener
  {
    RunKeeps(ToString(dialer), ToString(listener), ToString(dialled[2].hash), ToString(LastHash(upgraded).value),
             steps, states, i);
    VerdictExactly(states[i], Dialer, dialer, listener, dialled[2].hash);
    PrintedLength(dialer);
  }

  /** And the upgrade, with the dialer's own fingerprint. */
  lemma UpgradeSucceedsExactly(dialer: Hash, listener: Hash, dialled: Multiaddr, upgraded: Multiaddr, env: Environment,
                               steps: seq<Step>, states: seq<Pair>, i: nat)
    requires Diallable(dialled) && Upgradable(upgraded)
    requires Run(Begin(dialer, listener, dialled, upgraded), steps, states) && ReadsAt(states, i, Listener, env)
    ensures UpgradeSucceeds(upgraded, env) <==>
      && env.connection && env.channel && states[i].listener.wrote == 95 && LastHash(upgraded).value == dialer
  {
    RunKeeps(ToString(dialer), ToString(listener), ToString(dialled[2].hash), ToString(LastHash(upgraded).value),
             steps, states, i);
    VerdictExactly(states[i], Listener, listener, dialer, LastHash(upgraded).value);
    PrintedLength(listener);
  }

  /** If both ends of one exchange succeed, each has rendered the other's own fingerprint and the credentials the
      other configured, and the dialer has the peer it asked for. */
  lemma SessionsAgree(dialer: Hash, listener: Hash, dialled: Multiaddr, upgraded: Multiaddr,
                      dialEnv: Environment, upgradeEnv: Environment,
                      steps: seq<Step>, states: seq<Pair>, i: nat, j: nat)
    requires DialSucceeds(dialled, dialEnv) && UpgradeSucceeds(upgraded, upgradeEnv)
    requires Run(Begin(dialer, listener, dialled, upgraded), steps, states)
    requires ReadsAt(states, i, Dialer, dialEnv) && ReadsAt(states, j, Listener, upgradeEnv)
    ensures var dial := DialSession(dialled, ToString(dialer), dialEnv);
      var upgrade := UpgradeSession(upgraded, ToString(listener), upgradeEnv);
      && dial.description.fingerprint == ToString(listener) && upgrade.description.fingerprint == ToString(dialer)
      && dial.description.remote == upgrade.settings.local && upgrade.description.remote == dial.settings.local
      && LastPeer(dialled) == Some(dial.peer)
  {
    DialSucceedsExactly(dialer, listener, dialled, upgraded, dialEnv, steps, states, i);
    UpgradeSucceedsExactly(dialer, listener, dialled, upgraded, upgradeEnv, steps, states, j);
  }
}
