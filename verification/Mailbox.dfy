/** The one row through which the panel asks the listener to reload its configuration.

    Panel and listener share the row and nothing else. Each change of the row is one atomic update, and
    anything may happen between two of them; the listener's own workers included. */
module Mailbox {
  import opened Options

  datatype RuleConfig = RuleConfig(
    id: int, name: string, includeTerms: string, excludeTerms: Option<string>, maxPrice: Option<int>,
    targetPrice: Option<int>)

  /** The active configuration: what the listener runs on. */
  datatype Config = Config(sources: set<(int, string)>, rules: set<RuleConfig>, recipients: set<(int, string)>)

  const EMPTY := Config({}, {}, {})

  /** What the digest is taken of. A digest is as good as its payload here: it is injective on it. */
  datatype Fingerprint = Fingerprint(
    sources: set<(int, string)>, rules: set<(int, string, string, Option<int>)>, recipients: set<(int, string)>)

  function RulePayload(r: RuleConfig): (int, string, string, Option<int>) {
    (r.id, r.includeTerms, if r.excludeTerms.Some? then r.excludeTerms.value else "", r.maxPrice)
  }

  function FingerprintOf(c: Config): Fingerprint {
    Fingerprint(c.sources, set r | r in c.rules :: RulePayload(r), c.recipients)
  }

  datatype RowState = Idle | Pending | Applying | Failed

  datatype Row = Row(state: RowState, applied: Option<Fingerprint>)

  predicate InFlight(state: RowState) {
    state == Pending || state == Applying
  }

  function Requested(row: Row): Row {
    if InFlight(row.state) then row else row.(state := Pending)
  }

  function Claimed(row: Row): Row {
    if row.state == Pending then row.(state := Applying) else row
  }

  function AppliedRow(config: Config): Row {
    Row(Idle, Some(FingerprintOf(config)))
  }

  predicate HasUnappliedChanges(row: Row, config: Config) {
    FingerprintOf(config) != if row.applied.Some? then row.applied.value else FingerprintOf(EMPTY)
  }

  // ---------------------------------------------------------------------------------------------
  // The machine

  /** A worker between its claim and its outcome write. */
  datatype Apply = Claiming | Loaded(config: Config) | Swapped(config: Config) | Broken

  /** `running` is the configuration the listener works by; `accepted` and `covered` count the requests
      the row took and those a later load answered; `lost` says that the row missed a swap. */
  datatype System = System(
    row: Row, config: Config, running: Config, applies: map<int, Apply>, accepted: nat, covered: nat, lost: bool)

  datatype Action =
    | Edit(config: Config)
    | Request
    | Claim(worker: int)
    | Load(worker: int, raises: bool)
    | Fail(worker: int)
    | Swap(worker: int)
    | Record(worker: int)
    | RecordLost(worker: int)
    | Boot
    | BootUnrecorded

  function DoRequest(s: System): System {
    if InFlight(s.row.state) then s else s.(row := Requested(s.row), accepted := s.accepted + 1)
  }

  function DoClaim(s: System, w: int): System {
    if w in s.applies || s.row.state != Pending then s
    else s.(row := Claimed(s.row), applies := s.applies[w := Claiming])
  }

  /** The load that answers every request accepted so far, with a configuration or with an error. */
  function DoLoad(s: System, w: int, raises: bool): System {
    if w !in s.applies || !s.applies[w].Claiming? then s
    else s.(applies := s.applies[w := if raises then Broken else Loaded(s.config)], covered := s.accepted)
  }

  /** Preparing the new configuration raised: nothing was swapped. */
  function DoFail(s: System, w: int): System {
    if w !in s.applies || !s.applies[w].Loaded? then s else s.(applies := s.applies[w := Broken])
  }

  function DoSwap(s: System, w: int): System {
    if w !in s.applies || !s.applies[w].Loaded? then s
    else s.(running := s.applies[w].config, applies := s.applies[w := Swapped(s.applies[w].config)])
  }

  function DoRecord(s: System, w: int): System {
    if w !in s.applies then s
    else
      match s.applies[w]
      case Swapped(c) => s.(row := AppliedRow(c), applies := s.applies - {w}, lost := false)
      case Broken => s.(row := s.row.(state := Failed), applies := s.applies - {w})
      case _ => s
  }

  /** The outcome write raised and was swallowed. */
  function DoRecordLost(s: System, w: int): System {
    if w !in s.applies || !(s.applies[w].Swapped? || s.applies[w].Broken?) then s
    else s.(applies := s.applies - {w}, lost := s.lost || s.applies[w].Swapped?)
  }

  /** A new process: a fresh load is the reload, and settles whatever the row said. */
  function DoBoot(s: System): System {
    s.(row := AppliedRow(s.config), running := s.config, applies := map[], covered := s.accepted, lost := false)
  }

  function DoBootUnrecorded(s: System): System {
    s.(running := s.config, applies := map[], covered := s.accepted, lost := true)
  }

  function Step(s: System, a: Action): System {
    match a
    case Edit(config) => s.(config := config)
    case Request => DoRequest(s)
    case Claim(w) => DoClaim(s, w)
    case Load(w, raises) => DoLoad(s, w, raises)
    case Fail(w) => DoFail(s, w)
    case Swap(w) => DoSwap(s, w)
    case Record(w) => DoRecord(s, w)
    case RecordLost(w) => DoRecordLost(s, w)
    case Boot => DoBoot(s)
    case BootUnrecorded => DoBootUnrecorded(s)
  }

  function Run(s: System, actions: seq<Action>): System
    decreases |actions|
  {
    if actions == [] then s else Run(Step(s, actions[0]), actions[1..])
  }

  /** A new installation: no row content, nothing configured, nothing running. */
  function Start(): System {
    System(Row(Idle, None), EMPTY, EMPTY, map[], 0, 0, false)
  }

  function Reported(row: Row): Fingerprint {
    if row.applied.Some? then row.applied.value else FingerprintOf(EMPTY)
  }

  /** A worker is about to load, or one will be. */
  ghost predicate LoadAhead(s: System) {
    s.row.state == Pending || exists w :: w in s.applies && s.applies[w] == Claiming
  }

  ghost predicate OneApply(applies: map<int, Apply>) {
    forall v, w :: v in applies && w in applies ==> v == w
  }

  ghost predicate SwappedRuns(applies: map<int, Apply>, running: Config) {
    forall w :: w in applies && applies[w].Swapped? ==> applies[w].config == running
  }

  ghost predicate NoneSwapped(applies: map<int, Apply>) {
    forall w :: w in applies ==> !applies[w].Swapped?
  }

  ghost predicate Invariant(s: System) {
    && OneApply(s.applies) && (forall w :: w in s.applies ==> s.row.state == Applying)
    && SwappedRuns(s.applies, s.running)
    && s.covered <= s.accepted <= s.covered + 1 && (s.covered == s.accepted || LoadAhead(s))
    && (!s.lost && NoneSwapped(s.applies) ==> Reported(s.row) == FingerprintOf(s.running))
  }

  lemma LoadKeepsInvariant(s: System, w: int, raises: bool)
    requires Invariant(s)
    ensures Invariant(DoLoad(s, w, raises))
  {
  }

  lemma ClaimKeepsInvariant(s: System, w: int)
    requires Invariant(s)
    ensures Invariant(DoClaim(s, w))
  {
    var s' := DoClaim(s, w);
    if s' != s {
      assert s.applies == map[] by {
        assert forall v :: v !in s.applies;
      }
      assert w in s'.applies && s'.applies[w] == Claiming;
    }
  }

  lemma NothingAheadAfterLoad(s: System, w: int)
    requires Invariant(s) && w in s.applies && !s.applies[w].Claiming?
    ensures s.covered == s.accepted && s.applies == map[w := s.applies[w]]
  {
    assert forall v :: v in s.applies ==> v == w;
  }

  lemma RecordKeepsInvariant(s: System, w: int)
    requires Invariant(s) && w in s.applies
    ensures Invariant(DoRecord(s, w))
  {
    if !s.applies[w].Claiming? {
      NothingAheadAfterLoad(s, w);
    }
  }

  lemma RecordLostKeepsInvariant(s: System, w: int)
    requires Invariant(s) && w in s.applies && !s.applies[w].Claiming?
    ensures Invariant(DoRecordLost(s, w))
  {
    NothingAheadAfterLoad(s, w);
    assert !s.applies[w].Swapped? ==> NoneSwapped(s.applies);
  }

  lemma FailKeepsInvariant(s: System, w: int)
    requires Invariant(s) && w in s.applies && s.applies[w].Loaded?
    ensures Invariant(DoFail(s, w))
  {
    NothingAheadAfterLoad(s, w);
    assert NoneSwapped(s.applies);
  }

  lemma SwapKeepsInvariant(s: System, w: int)
    requires Invariant(s) && w in s.applies && s.applies[w].Loaded?
    ensures Invariant(DoSwap(s, w))
  {
    NothingAheadAfterLoad(s, w);
    assert DoSwap(s, w).applies[w].Swapped?;
  }

  lemma StepKeepsInvariant(s: System, a: Action)
    requires Invariant(s)
    ensures Invariant(Step(s, a))
  {
    if a.Load? {
      LoadKeepsInvariant(s, a.worker, a.raises);
    } else if a.Claim? {
      ClaimKeepsInvariant(s, a.worker);
    } else if a.Record? && a.worker in s.applies {
      RecordKeepsInvariant(s, a.worker);
    } else if a.RecordLost? && a.worker in s.applies && !s.applies[a.worker].Claiming? {
      RecordLostKeepsInvariant(s, a.worker);
    } else if a.Fail? && a.worker in s.applies && s.applies[a.worker].Loaded? {
      FailKeepsInvariant(s, a.worker);
    } else if a.Swap? && a.worker in s.applies && s.applies[a.worker].Loaded? {
      SwapKeepsInvariant(s, a.worker);
    }
  }

  lemma {:induction false} RunKeepsInvariant(s: System, actions: seq<Action>)
    requires Invariant(s)
    ensures Invariant(Run(s, actions))
    decreases |actions|
  {
    if actions != [] {
      StepKeepsInvariant(s, actions[0]);
      RunKeepsInvariant(Step(s, actions[0]), actions[1..]);
    }
  }

  // ---------------------------------------------------------------------------------------------
  // What the mailbox promises

  /** However many workers poll the row, at most one is between its claim and its outcome write. */
  lemma AtMostOneApply(actions: seq<Action>, v: int, w: int)
    requires v in Run(Start(), actions).applies && w in Run(Start(), actions).applies
    ensures v == w && Run(Start(), actions).row.state == Applying
  {
    RunKeepsInvariant(Start(), actions);
  }

  /** An accepted request is answered by a load taken after it, or that load is still to come: the row is
      pending, or its worker has claimed it and not loaded yet. */
  lemma AcceptedRequestsAreAnswered(actions: seq<Action>)
    ensures var s := Run(Start(), actions);
            s.covered == s.accepted || (s.covered + 1 == s.accepted && LoadAhead(s))
  {
    RunKeepsInvariant(Start(), actions);
  }

  /** Once answered by a load that did not raise, a request's configuration is what gets swapped in: the
      one loaded, whatever is edited meanwhile. */
  lemma LoadedConfigurationIsSwappedIn(s: System, w: int, edited: Config)
    requires Invariant(s) && w in s.applies && s.applies[w].Claiming?
    ensures var after := Run(s, [Load(w, false), Edit(edited), Swap(w), Record(w)]);
            && after.running == s.config && after.covered == s.accepted && after.row == AppliedRow(s.config)
            && (HasUnappliedChanges(after.row, after.config) <==> FingerprintOf(edited) != FingerprintOf(s.config))
  {
    var s1 := Step(s, Load(w, false));
    var s2 := Step(s1, Edit(edited));
    var s3 := Step(s2, Swap(w));
    var s4 := Step(s3, Record(w));
    var actions := [Load(w, false), Edit(edited), Swap(w), Record(w)];
    assert actions[1..][1..][1..][1..] == [];
    assert Run(s4, []) == s4;
    assert actions[1..][1..][1..] == [Record(w)] && actions[1..][1..] == [Swap(w), Record(w)];
    assert Run(s3, [Record(w)]) == Run(s4, [Record(w)][1..]);
    assert Run(s2, [Swap(w), Record(w)]) == Run(s3, [Swap(w), Record(w)][1..]);
  }

  /** With no apply between swap and outcome write and no outcome lost, the panel's notice is right: it
      shows exactly when the configuration's fingerprint differs from the running one's. */
  lemma UnappliedChangesAreSeen(actions: seq<Action>)
    ensures var s := Run(Start(), actions);
            !s.lost && NoneSwapped(s.applies) ==>
              (HasUnappliedChanges(s.row, s.config) <==> FingerprintOf(s.config) != FingerprintOf(s.running))
  {
    RunKeepsInvariant(Start(), actions);
  }

  ghost predicate Stuck(s: System) {
    s.row.state == Applying && s.applies == map[]
  }

  /** An outcome write given up leaves the row applying with nobody at work: until the listener boots
      again, every request is refused, none is claimed, and nothing is swapped. */
  lemma {:induction false} LostOutcomeSticksUntilBoot(s: System, actions: seq<Action>)
    requires Stuck(s) && forall i :: 0 <= i < |actions| ==> !actions[i].Boot? && !actions[i].BootUnrecorded?
    ensures var after := Run(s, actions);
            Stuck(after) && after.accepted == s.accepted && after.running == s.running && after.row == s.row
    decreases |actions|
  {
    if actions != [] {
      assert actions[0] == actions[0];
      LostOutcomeSticksUntilBoot(Step(s, actions[0]), actions[1..]);
    }
  }

  lemma LostOutcomeLeavesItStuck(s: System, w: int)
    requires Invariant(s) && w in s.applies && (s.applies[w].Swapped? || s.applies[w].Broken?)
    ensures Stuck(Step(s, RecordLost(w))) && !Stuck(Step(Step(s, RecordLost(w)), Boot))
  {
    assert forall v :: v in s.applies ==> v == w;
    assert (s.applies - {w}) == map[];
  }

  /** The same rule with the same terms and ceiling; no terms to leave out and an empty list of them are one. */
  ghost predicate ReadsTheSame(r: RuleConfig, q: RuleConfig) {
    && r.id == q.id && r.includeTerms == q.includeTerms && r.maxPrice == q.maxPrice
    && (r.excludeTerms == q.excludeTerms
        || (r.excludeTerms in {None, Some("")} && q.excludeTerms in {None, Some("")}))
  }

  /** Two configurations look the same to the panel exactly when they differ in names, target prices, or
      between no excluded terms and empty ones. */
  lemma FingerprintForgets(c: Config, d: Config)
    ensures FingerprintOf(c) == FingerprintOf(d) <==>
      && c.sources == d.sources && c.recipients == d.recipients
      && (forall r :: r in c.rules ==> exists q :: q in d.rules && ReadsTheSame(q, r))
      && (forall q :: q in d.rules ==> exists r :: r in c.rules && ReadsTheSame(r, q))
  {
    var f, g := FingerprintOf(c), FingerprintOf(d);
    if f == g {
      forall r | r in c.rules ensures exists q :: q in d.rules && ReadsTheSame(q, r) {
        assert RulePayload(r) in f.rules;
      }
      forall q | q in d.rules ensures exists r :: r in c.rules && ReadsTheSame(r, q) {
        assert RulePayload(q) in g.rules;
      }
    }
    forall r, q ensures ReadsTheSame(r, q) <==> RulePayload(r) == RulePayload(q) {
    }
  }

  /** One rule of a configuration gets another target price. */
  function Retargeted(c: Config, r: RuleConfig, target: Option<int>): Config {
    c.(rules := c.rules - {r} + {r.(targetPrice := target)})
  }

  lemma RetargetingKeepsTheFingerprint(c: Config, r: RuleConfig, target: Option<int>)
    requires r in c.rules
    ensures FingerprintOf(Retargeted(c, r, target)) == FingerprintOf(c)
  {
    var edited, changed := Retargeted(c, r, target), r.(targetPrice := target);
    assert RulePayload(changed) == RulePayload(r);
    forall q | q in c.rules ensures exists p :: p in edited.rules && ReadsTheSame(p, q) {
      assert if q == r then changed in edited.rules else q in edited.rules;
    }
    forall p | p in edited.rules ensures exists q :: q in c.rules && ReadsTheSame(q, p) {
      assert if p == changed then r in c.rules else p in c.rules;
    }
    FingerprintForgets(edited, c);
  }

  /** So a new target price of any rule is never announced as unapplied, though the listener keeps the old
      one. */
  lemma TargetEditsGoUnnoticed(s: System, r: RuleConfig, target: Option<int>)
    requires s.config == s.running && r in s.config.rules && target != r.targetPrice
    requires !HasUnappliedChanges(s.row, s.config)
    ensures var after := Step(s, Edit(Retargeted(s.config, r, target)));
            && r !in after.config.rules && r in after.running.rules && after.config != after.running
            && !HasUnappliedChanges(after.row, after.config)
  {
    RetargetingKeepsTheFingerprint(s.config, r, target);
  }

  // ---------------------------------------------------------------------------------------------
  // The row and its worker

  /** The single row, as both processes see it. */
  class ListenerControl {
    var row: Row

    constructor ()
      ensures row == Row(Idle, None)
    {
      row := Row(Idle, None);
    }

    method RequestReload() returns (accepted: bool)
      modifies this
      ensures accepted <==> old(row).state in {Idle, Failed}
      ensures row == (if accepted then old(row).(state := Pending) else old(row)) == Requested(old(row))
    {
      accepted := row.state != Pending && row.state != Applying;
      if accepted {
        row := row.(state := Pending);
      }
    }

    method ClaimReload() returns (claimed: bool)
      modifies this
      ensures claimed <==> old(row).state == Pending
      ensures row == (if claimed then old(row).(state := Applying) else old(row)) == Claimed(old(row))
    {
      claimed := row.state == Pending;
      if claimed {
        row := row.(state := Applying);
      }
    }

    method RecordApplied(config: Config)
      modifies this
      ensures row == AppliedRow(config) && row.state == Idle && row.applied == Some(FingerprintOf(config))
    {
      row := Row(Idle, Some(FingerprintOf(config)));
    }

    method RecordFailed()
      modifies this
      ensures row == old(row).(state := Failed)
    {
      row := row.(state := Failed);
    }

    method ReadSnapshot(config: Config) returns (state: RowState, unapplied: bool)
      ensures state == row.state && unapplied == HasUnappliedChanges(row, config)
    {
      var applied := if row.applied.Some? then row.applied.value else FingerprintOf(EMPTY);
      return row.state, FingerprintOf(config) != applied;
    }
  }

  /** How one apply goes: whether the load, the preparation and the outcome write raise. */
  datatype Outcome = Outcome(loadRaises: bool, prepareRaises: bool, writeRaises: bool)

  class ReloadWorker {
    const control: ListenerControl
    var running: Config

    constructor (control: ListenerControl)
      ensures this.control == control && running == EMPTY
    {
      this.control := control;
      running := EMPTY;
    }

    /** One tick, nothing interleaved: a pending request is applied, or marked failed with the old
        configuration still running; with the outcome write lost the row stays in `applying`. */
    method PollOnce(ready: bool, config: Config, outcome: Outcome) returns (handled: bool)
      modifies this, control
      ensures handled == (ready && old(control.row).state == Pending)
      ensures !handled ==> control.row == old(control.row) && running == old(running)
      ensures handled ==>
        var failed := outcome.loadRaises || outcome.prepareRaises;
        && running == (if failed then old(running) else config)
        && control.row == (if outcome.writeRaises then old(control.row).(state := Applying)
                           else if failed then old(control.row).(state := Failed) else AppliedRow(config))
    {
      if !ready {
        return false;
      }
      handled := control.ClaimReload();
      if handled {
        if outcome.loadRaises || outcome.prepareRaises {
          if !outcome.writeRaises {
            control.RecordFailed();
          }
        } else {
          running := config;
          if !outcome.writeRaises {
            control.RecordApplied(config);
          }
        }
      }
    }
  }

  /** A tick of the worker is a run of the machine. */
  lemma TickIsARun(s: System, w: int, outcome: Outcome)
    requires Invariant(s) && s.row.state == Pending
    ensures var end := if outcome.writeRaises then RecordLost(w) else Record(w);
            var failed := outcome.loadRaises || outcome.prepareRaises;
            var after := Step(Step(Step(Step(s, Claim(w)), Load(w, outcome.loadRaises)),
                                   if outcome.prepareRaises then Fail(w) else Swap(w)), end);
            && after.running == (if failed then s.running else s.config)
            && after.row == (if outcome.writeRaises then s.row.(state := Applying)
                             else if failed then s.row.(state := Failed) else AppliedRow(s.config))
            && after.covered == after.accepted == s.accepted && after.applies == map[]
  {
    assert forall v :: v !in s.applies;
    assert s.applies == map[];
  }
}
