/**
 * The server key and certificate on disk (internal/certs/store.go): one process at a time, started
 * any number of times, failing in any call and killed between any two.
 */
module KeyFiles {
  import opened Prelude

  /** A file holds all of what one issuance wrote to it, or the beginning of that. */
  datatype File = Absent | Torn(issue: nat) | Whole(issue: nat)

  datatype Disk = Disk(key: File, cert: File)

  datatype Pc =
    | Down
    | Probing
    | Issuing
    | KeyCreate(issue: nat) | KeyWrite(issue: nat)
    | CertCreate(issue: nat) | CertWrite(issue: nat)
    | UndoKey
    | Loading
    | RemoveCert | RemoveKey
    | Serving(issue: nat)
    | Refused

  /** `reissued`: this start has already replaced a drifted pair. */
  datatype State = State(disk: Disk, pc: Pc, issued: nat, reissued: bool)

  const INIT := State(Disk(Absent, Absent), Down, 0, false)

  /** How the next call goes: `Lost` is a failure after its effect, as when Close reports one. */
  datatype Fate = Done | Fails | Lost

  /** `drift`: the certificate does not cover every configured address. */
  datatype Action = Boot | Kill | Step(fate: Fate, drift: bool)

  predicate Enabled(s: State, a: Action) {
    match a
    case Boot => s.pc.Down?
    case Kill => true
    case Step(_, _) => !s.pc.Down?
  }

  /** LoadX509KeyPair: both files parse and the key is the certificate's own. */
  predicate Matches(d: Disk) { d.key.Whole? && d.cert.Whole? && d.key.issue == d.cert.issue }

  function Next(s: State, fate: Fate, drift: bool): State {
    var d := s.disk;
    match s.pc
    case Probing =>
      if fate != Done then s.(pc := Refused)
      else if !d.key.Absent? && !d.cert.Absent? then s.(pc := Loading)
      else if d.key.Absent? && d.cert.Absent? then s.(pc := Issuing)
      else s.(pc := Refused)
    case Issuing =>
      if fate != Done then s.(pc := Refused) else s.(pc := KeyCreate(s.issued), issued := s.issued + 1)
    case KeyCreate(i) =>
      if fate == Fails || !d.key.Absent? then s.(pc := Refused)
      else s.(disk := d.(key := Torn(i)), pc := if fate == Lost then Refused else KeyWrite(i))
    case KeyWrite(i) =>
      if fate == Fails then s.(pc := Refused)
      else s.(disk := d.(key := Whole(i)), pc := if fate == Lost then Refused else CertCreate(i))
    case CertCreate(i) =>
      if fate == Fails || !d.cert.Absent? then s.(pc := UndoKey)
      else s.(disk := d.(cert := Torn(i)), pc := if fate == Lost then UndoKey else CertWrite(i))
    case CertWrite(i) =>
      if fate == Fails then s.(pc := UndoKey)
      else s.(disk := d.(cert := Whole(i)), pc := if fate == Lost then UndoKey else Loading)
    case UndoKey => if fate == Fails then s.(pc := Refused) else s.(disk := d.(key := Absent), pc := Refused)
    case Loading =>
      if fate != Done || !Matches(d) then s.(pc := Refused)
      else if drift && !s.reissued then s.(pc := RemoveCert, reissued := true)
      else s.(pc := Serving(d.key.issue))
    case RemoveCert =>
      if fate == Fails then s.(pc := Refused)
      else s.(disk := d.(cert := Absent), pc := if fate == Lost then Refused else RemoveKey)
    case RemoveKey =>
      if fate == Fails then s.(pc := Refused)
      else s.(disk := d.(key := Absent), pc := if fate == Lost then Refused else Issuing)
    case _ => s
  }

  function Apply(s: State, a: Action): State
    requires Enabled(s, a)
  {
    match a
    case Boot => s.(pc := Probing, reissued := false)
    case Kill => s.(pc := Down)
    case Step(fate, drift) => Next(s, fate, drift)
  }

  predicate Legal(s: State, actions: seq<Action>)
    decreases |actions|
  {
    actions == [] || (Enabled(s, actions[0]) && Legal(Apply(s, actions[0]), actions[1..]))
  }

  function Exec(s: State, actions: seq<Action>): State
    requires Legal(s, actions)
    decreases |actions|
  {
    if actions == [] then s else Exec(Apply(s, actions[0]), actions[1..])
  }

  /** What each point of the sequence knows about the disk. */
  predicate Inv(s: State) {
    var d := s.disk;
    && (!d.key.Absent? && !d.cert.Absent? ==> d.key.issue == d.cert.issue)
    && match s.pc
       case Issuing => d.key.Absent? && d.cert.Absent?
       case KeyCreate(_) => d.key.Absent? && d.cert.Absent?
       case KeyWrite(i) => d.key == Torn(i) && d.cert.Absent?
       case CertCreate(i) => d.key == Whole(i) && d.cert.Absent?
       case CertWrite(i) => d == Disk(Whole(i), Torn(i))
       case RemoveCert => Matches(d)
       case RemoveKey => d.cert.Absent?
       case Serving(i) => d == Disk(Whole(i), Whole(i))
       case _ => true
  }

  lemma {:induction false} CrashSafe(s: State, actions: seq<Action>)
    requires Inv(s) && Legal(s, actions)
    ensures Inv(Exec(s, actions))
    decreases |actions|
  {
    if actions != [] {
      assert Inv(Apply(s, actions[0]));
      CrashSafe(Apply(s, actions[0]), actions[1..]);
    }
  }

  /**
   * After any history of starts, failures and kills: a key and a certificate that are both on disk
   * come from one issuance, so two whole files always load; and a start that serves, serves them.
   */
  lemma PairAlwaysMatches(actions: seq<Action>)
    requires Legal(INIT, actions)
    ensures var s := Exec(INIT, actions);
            && (s.disk.key.Whole? && s.disk.cert.Whole? ==> Matches(s.disk))
            && (s.pc.Serving? ==> s.disk == Disk(Whole(s.pc.issue), Whole(s.pc.issue)))
  {
    CrashSafe(INIT, actions);
  }

  /** A start's next n steps, none of which fails. */
  function Smoothly(s: State, n: nat, drift: bool): State
    decreases n
  {
    if n == 0 then s else Smoothly(Next(s, Done, drift), n - 1, drift)
  }

  /** How many smooth steps a start still needs. */
  function ToServe(s: State, drift: bool): nat {
    match s.pc
    case Probing => (if s.disk.key.Absent? then 7 else 2) + (if drift then 8 else 0)
    case Issuing => 6 + (if drift && !s.reissued then 8 else 0)
    case KeyCreate(_) => 5 + (if drift && !s.reissued then 8 else 0)
    case KeyWrite(_) => 4 + (if drift && !s.reissued then 8 else 0)
    case CertCreate(_) => 3 + (if drift && !s.reissued then 8 else 0)
    case CertWrite(_) => 2 + (if drift && !s.reissued then 8 else 0)
    case Loading => 1 + (if drift && !s.reissued then 8 else 0)
    case RemoveCert => 8
    case RemoveKey => 7
    case _ => 0
  }

  predicate Promising(s: State) {
    Inv(s) && !s.pc.Down? && !s.pc.Refused? && !s.pc.UndoKey?
    && (s.pc.Loading? ==> Matches(s.disk)) && (s.pc.RemoveCert? || s.pc.RemoveKey? ==> s.reissued)
    && (s.pc.Probing? ==> !s.reissued && (Matches(s.disk) || s.disk == Disk(Absent, Absent)))
  }

  /** Which issuance a smooth start ends up serving; `issued` numbers the next one. */
  function Outcome(s: State, drift: bool): nat {
    var renews := drift && !s.reissued;
    match s.pc
    case Probing =>
      if s.disk.key.Absent? then (if drift then s.issued + 1 else s.issued)
      else if drift then s.issued else s.disk.key.issue
    case Issuing => if renews then s.issued + 1 else s.issued
    case KeyCreate(i) => if renews then s.issued else i
    case KeyWrite(i) => if renews then s.issued else i
    case CertCreate(i) => if renews then s.issued else i
    case CertWrite(i) => if renews then s.issued else i
    case Loading => if renews || s.disk.key.Absent? then s.issued else s.disk.key.issue
    case RemoveCert => s.issued
    case RemoveKey => s.issued
    case Serving(i) => i
    case _ => 0
  }

  /** A start that meets no failure serves, from no files as from a pair, drifted or not. */
  lemma {:induction false} StartServes(s: State, drift: bool)
    requires Promising(s)
    ensures var end := Smoothly(s, ToServe(s, drift), drift);
            end.pc == Serving(Outcome(s, drift))
    decreases ToServe(s, drift)
  {
    if !s.pc.Serving? {
      assert Promising(Next(s, Done, drift));
      assert ToServe(s, drift) == ToServe(Next(s, Done, drift), drift) + 1;
      assert Outcome(s, drift) == Outcome(Next(s, Done, drift), drift);
      StartServes(Next(s, Done, drift), drift);
    }
  }

  /** Issuances are numbered as they come, so what is on disk is older than the next one. */
  predicate Older(s: State) {
    && (!s.disk.key.Absent? ==> s.disk.key.issue < s.issued)
    && (!s.disk.cert.Absent? ==> s.disk.cert.issue < s.issued)
    && (s.pc.KeyCreate? || s.pc.KeyWrite? || s.pc.CertCreate? || s.pc.CertWrite? || s.pc.Serving? ==>
          s.pc.issue < s.issued)
  }

  lemma {:induction false} OlderExec(s: State, actions: seq<Action>)
    requires Older(s) && Inv(s) && Legal(s, actions)
    ensures Older(Exec(s, actions)) && Inv(Exec(s, actions))
    decreases |actions|
  {
    if actions != [] {
      assert Older(Apply(s, actions[0])) && Inv(Apply(s, actions[0]));
      OlderExec(Apply(s, actions[0]), actions[1..]);
    }
  }

  /**
   * After any history, the next smooth start on a loadable pair serves it, unless the addresses have
   * drifted; then it serves a pair issued after everything that was on disk. With no files at all
   * it issues a pair, and with drift reported for that one too, one more.
   */
  lemma StartServesWhich(actions: seq<Action>, drift: bool)
    requires Legal(INIT, actions) && Exec(INIT, actions).pc.Down?
    requires Matches(Exec(INIT, actions).disk) || Exec(INIT, actions).disk == Disk(Absent, Absent)
    ensures
      var s := Exec(INIT, actions);
      var start := Apply(s, Boot);
      var end := Smoothly(start, ToServe(start, drift), drift);
      && end.pc.Serving? && end.disk == Disk(Whole(end.pc.issue), Whole(end.pc.issue))
      && (s.disk.key.Whole? && !drift ==> end.disk == s.disk)
      && (s.disk.key.Whole? && drift ==> end.pc.issue > s.disk.key.issue)
      && (s.disk.key.Absent? ==> end.pc.issue == s.issued + if drift then 1 else 0)
  {
    OlderExec(INIT, actions);
    var start := Apply(Exec(INIT, actions), Boot);
    StartServes(start, drift);
    SmoothKeeps(start, ToServe(start, drift), drift);
  }

  lemma {:induction false} SmoothKeeps(s: State, n: nat, drift: bool)
    requires Inv(s)
    ensures Inv(Smoothly(s, n, drift))
    decreases n
  {
    if n > 0 {
      assert Inv(Next(s, Done, drift));
      SmoothKeeps(Next(s, Done, drift), n - 1, drift);
    }
  }

  /** A start's n smooth steps and then one that fails; a key left without its certificate is removed. */
  function FailAt(s: State, n: nat, fate: Fate, undo: Fate, drift: bool): State {
    var failed := Next(Smoothly(s, n, drift), fate, drift);
    if failed.pc.UndoKey? then Next(failed, undo, drift) else failed
  }

  /**
   * What a failure leaves on disk while a pair is issued, by the call it hits. Before the key exists
   * nothing; a key that could not be finished stays; a failing certificate takes its key back, if
   * the removal works, but what was written of it stays; and a whole pair that cannot be read back
   * stays too. The start refuses in every case.
   */
  lemma IssuingFails(s: State, n: nat, fate: Fate, undo: Fate, drift: bool)
    requires s.pc.Issuing? && s.disk == Disk(Absent, Absent) && fate != Done && n <= 5
    ensures
      var end, i := FailAt(s, n, fate, undo, drift), s.issued;
      var keyLeft := if undo == Fails then Whole(i) else Absent;
      && end.pc.Refused?
      && end.disk == match n
         case 0 => Disk(Absent, Absent)
         case 1 => Disk(if fate == Fails then Absent else Torn(i), Absent)
         case 2 => Disk(if fate == Fails then Torn(i) else Whole(i), Absent)
         case 3 => Disk(keyLeft, if fate == Fails then Absent else Torn(i))
         case 4 => Disk(keyLeft, if fate == Fails then Torn(i) else Whole(i))
         case _ => Disk(Whole(i), Whole(i))
  {
    var i := s.issued;
    var s1 := Next(s, Done, drift);
    var s2 := Next(s1, Done, drift);
    assert s2.disk == Disk(Torn(i), Absent) && s2.pc == KeyWrite(i);
    var s3 := Next(s2, Done, drift);
    assert s3.disk == Disk(Whole(i), Absent) && s3.pc == CertCreate(i);
    var s4 := Next(s3, Done, drift);
    assert s4.disk == Disk(Whole(i), Torn(i)) && s4.pc == CertWrite(i);
    var s5 := Next(s4, Done, drift);
    assert s5.disk == Disk(Whole(i), Whole(i)) && s5.pc == Loading;
    SmoothSteps(s, n, drift);
    SmoothSteps(s1, n - 1, drift);
    SmoothSteps(s2, n - 2, drift);
    SmoothSteps(s3, n - 3, drift);
    SmoothSteps(s4, n - 4, drift);
  }

  lemma SmoothSteps(s: State, n: int, drift: bool)
    ensures n > 0 ==> Smoothly(s, n, drift) == Smoothly(Next(s, Done, drift), n - 1, drift)
    ensures n == 0 ==> Smoothly(s, n, drift) == s
  {
  }

  /** The same for a first start, which looks for the files and then issues. */
  lemma FirstStartFails(s: State, n: nat, fate: Fate, undo: Fate, drift: bool)
    requires s.pc.Probing? && s.disk == Disk(Absent, Absent) && fate != Done
    ensures n == 0 ==> FailAt(s, n, fate, undo, drift) == s.(pc := Refused)
    ensures n > 0 ==> FailAt(s, n, fate, undo, drift) == FailAt(s.(pc := Issuing), n - 1, fate, undo, drift)
  {
    SmoothSteps(s, n, drift);
  }

  /**
   * And for a start that replaces a drifted pair: looking and reading leave it alone; the
   * certificate goes first, so a removal that fails leaves the pair or the key alone; then it issues.
   */
  lemma ReissueFails(s: State, n: nat, fate: Fate, undo: Fate)
    requires s.pc.Probing? && Matches(s.disk) && !s.reissued && fate != Done
    ensures
      var end := FailAt(s, n, fate, undo, true);
      && (n <= 3 ==> end.pc.Refused?)
      && (n <= 1 || (n == 2 && fate == Fails) ==> end.disk == s.disk)
      && ((n == 2 && fate == Lost) || (n == 3 && fate == Fails) ==> end.disk == Disk(s.disk.key, Absent))
      && (n == 3 && fate == Lost ==> end.disk == Disk(Absent, Absent))
      && (n >= 4 ==> end == FailAt(s.(disk := Disk(Absent, Absent), pc := Issuing, reissued := true),
                                   n - 4, fate, undo, true))
  {
    var s1 := Next(s, Done, true);
    var s2 := Next(s1, Done, true);
    var s3 := Next(s2, Done, true);
    assert s2.pc == RemoveCert && s3.pc == RemoveKey;
    SmoothSteps(s, n, true);
    SmoothSteps(s1, n - 1, true);
    SmoothSteps(s2, n - 2, true);
    SmoothSteps(s3, n - 3, true);
  }

  /** Creating is exclusive: a file that is there, whoever put it there, is refused as it is. */
  lemma NothingOverwritten(s: State, fate: Fate, drift: bool)
    ensures s.pc.KeyCreate? && !s.disk.key.Absent? ==> Next(s, fate, drift) == s.(pc := Refused)
    ensures s.pc.CertCreate? && !s.disk.cert.Absent? ==>
              Next(s, fate, drift).disk == s.disk && Next(s, fate, drift).pc in {UndoKey, Refused}
  {
  }

  /** Without address drift a pair on disk outlives every start, failed ones included. */
  lemma {:induction false} PairKept(s: State, actions: seq<Action>)
    requires Matches(s.disk) && (s.pc.Down? || s.pc.Probing? || s.pc.Loading? || s.pc.Refused? || s.pc.Serving?)
    requires Legal(s, actions) && forall a :: a in actions && a.Step? ==> !a.drift
    ensures Exec(s, actions).disk == s.disk
    decreases |actions|
  {
    if actions != [] {
      assert actions[0] in actions;
      PairKept(Apply(s, actions[0]), actions[1..]);
    }
  }

  /** Half an identity, or one with a torn half, is never written over: every start refuses, until someone acts. */
  lemma {:induction false} HalfIsLoud(s: State, actions: seq<Action>)
    requires s.pc.Down? && !Matches(s.disk) && !(s.disk.key.Absent? && s.disk.cert.Absent?)
    requires Legal(s, actions)
    ensures Exec(s, actions).disk == s.disk && !Exec(s, actions).pc.Serving?
  {
    HalfStays(s, actions);
  }

  lemma {:induction false} HalfStays(s: State, actions: seq<Action>)
    requires s.pc.Down? || s.pc.Probing? || s.pc.Loading? || s.pc.Refused?
    requires !Matches(s.disk) && !(s.disk.key.Absent? && s.disk.cert.Absent?) && Legal(s, actions)
    ensures Exec(s, actions).disk == s.disk && !Exec(s, actions).pc.Serving?
    decreases |actions|
  {
    if actions != [] {
      HalfStays(Apply(s, actions[0]), actions[1..]);
    }
  }
}
