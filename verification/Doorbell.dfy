/** The doorbell between the host and the card's worker: request and reply
    lines in shared memory, every word of them read and written on its own,
    in any interleaving, with requests the host gives up on. */
module Doorbell {
  import opened Common

  const FIELDS := 7
  const ANSWERS := 6

  /** The words of a request and of a reply behind their sequence numbers. */
  type Request = r: seq<int> | |r| == FIELDS witness seq(FIELDS, _ => 0)
  type Reply = r: seq<int> | |r| == ANSWERS witness seq(ANSWERS, _ => 0)

  /** What the worker answers to a request: any function of its fields and
      of circumstance (clocks, failures). */
  type Work = (Request, int) -> Reply

  datatype Host =
    | Idle
      /** Fields being written for request number `q`. */
    | Staging(q: nat, r: Request, done: set<nat>)
    | Waiting(q: nat, r: Request)
      /** The reply line being read: its fields so far, and its number. */
    | Reading(q: nat, r: Request, got: map<nat, int>, number: Option<nat>)

  datatype Card =
    | Polling
      /** The request line being copied. */
    | Copying(copied: map<nat, int>)
    | Writing(answer: Reply, written: set<nat>)

  /** The window's words, both sides, and what `submit` has returned. `last`
      is the number the card last saw, which its reply echoes. */
  datatype State = State(
    reqSeq: nat, req: Request, repSeq: nat, rep: Reply,
    host: Host, card: Card, last: nat, log: seq<(Request, Reply)>)

  datatype Action =
    | Begin(r: Request) | Stage(i: nat) | Ring | Look | ReadNumber | ReadField(i: nat) | Retry | Return | GiveUp
    | Poll | Copy(i: nat) | Compute(salt: int) | Answer(i: nat) | Echo

  ghost predicate Full(m: map<nat, int>, n: nat) {
    forall i :: 0 <= i < n ==> i in m
  }

  ghost predicate All(s: set<nat>, n: nat) {
    forall i :: 0 <= i < n ==> i in s
  }

  ghost function RequestOf(m: map<nat, int>): Request
    requires Full(m, FIELDS)
  {
    seq(FIELDS, i requires 0 <= i < FIELDS => m[i])
  }

  ghost function ReplyOf(m: map<nat, int>): Reply
    requires Full(m, ANSWERS)
  {
    seq(ANSWERS, i requires 0 <= i < ANSWERS => m[i])
  }

  /** What can happen next. The host reads a reply's words in some order: the
      fields in `early` before the number, the others after it. */
  ghost predicate Can(early: set<nat>, s: State, a: Action) {
    match a
    case Begin(_) => s.host.Idle?
    case Stage(i) => s.host.Staging? && i < FIELDS
    case Ring => s.host.Staging? && All(s.host.done, FIELDS)
    case Look => s.host.Waiting?
    case ReadNumber => s.host.Reading? && s.host.number.None?
      && forall i :: 0 <= i < ANSWERS && i in early ==> i in s.host.got
    case ReadField(i) => s.host.Reading? && i < ANSWERS && i !in s.host.got && (s.host.number.Some? || i in early)
    case Retry => s.host.Reading? && s.host.number.Some? && s.host.number.value != s.host.q
    case Return => s.host.Reading? && Full(s.host.got, ANSWERS) && s.host.number == Some(s.host.q)
    case GiveUp => s.host.Waiting?
    case Poll => s.card.Polling?
    case Copy(i) => s.card.Copying? && i < FIELDS
    case Compute(_) => s.card.Copying? && Full(s.card.copied, FIELDS)
    case Answer(i) => s.card.Writing? && i < ANSWERS
    case Echo => s.card.Writing? && All(s.card.written, ANSWERS)
  }

  ghost function HostStep(early: set<nat>, s: State, a: Action): State
    requires Can(early, s, a)
  {
    match a
    case Begin(r) => s.(host := Staging(s.reqSeq + 1, r, {}))
    case Stage(i) => s.(req := s.req[i := s.host.r[i]], host := s.host.(done := s.host.done + {i}))
    case Ring => s.(reqSeq := s.host.q, host := Waiting(s.host.q, s.host.r))
    case Look => s.(host := Reading(s.host.q, s.host.r, map[], None))
    case ReadNumber => s.(host := s.host.(number := Some(s.repSeq)))
    case ReadField(i) => s.(host := s.host.(got := s.host.got[i := s.rep[i]]))
    case Retry => s.(host := Waiting(s.host.q, s.host.r))
    case Return => s.(host := Idle, log := s.log + [(s.host.r, ReplyOf(s.host.got))])
    case GiveUp => s.(host := Idle)
    case _ => s
  }

  ghost function CardStep(early: set<nat>, w: Work, s: State, a: Action): State
    requires Can(early, s, a)
  {
    match a
    case Poll => if s.reqSeq == s.last then s else s.(last := s.reqSeq, card := Copying(map[]))
    case Copy(i) => s.(card := Copying(s.card.copied[i := s.req[i]]))
    case Compute(salt) => s.(card := Writing(w(RequestOf(s.card.copied), salt), {}))
    case Answer(i) => s.(rep := s.rep[i := s.card.answer[i]], card := s.card.(written := s.card.written + {i}))
    case Echo => s.(repSeq := s.last, card := Polling)
    case _ => s
  }

  predicate ByHost(a: Action) {
    !(a.Poll? || a.Copy? || a.Compute? || a.Answer? || a.Echo?)
  }

  ghost function Step(early: set<nat>, w: Work, s: State, a: Action): State
    requires Can(early, s, a)
  {
    if ByHost(a) then HostStep(early, s, a) else CardStep(early, w, s, a)
  }

  ghost predicate CanRun(early: set<nat>, w: Work, s: State, acts: seq<Action>)
    decreases |acts|
  {
    acts == [] || (Can(early, s, acts[0]) && CanRun(early, w, Step(early, w, s, acts[0]), acts[1..]))
  }

  ghost function Run(early: set<nat>, w: Work, s: State, acts: seq<Action>): State
    requires CanRun(early, w, s, acts)
    decreases |acts|
  {
    if acts == [] then s else Run(early, w, Step(early, w, s, acts[0]), acts[1..])
  }

  // ---- what every step keeps ----

  /** An answer the worker gives to `r`. */
  ghost predicate Own(w: Work, r: Request, a: Reply) {
    exists salt :: a == w(r, salt)
  }

  /** While the host waits for a number, the window holds its request, and
      whatever the card has done under that number it did with it. */
  ghost predicate Served(w: Work, s: State, q: nat, r: Request) {
    && q == s.reqSeq && s.req == r
    && (s.last == q && s.card.Copying? ==> forall i :: i in s.card.copied && i < FIELDS ==> s.card.copied[i] == r[i])
    && (s.last == q && s.card.Writing? ==> Own(w, r, s.card.answer))
    && (s.repSeq == q ==> s.last == q && s.card.Polling? && Own(w, r, s.rep))
  }

  /** With the number read first: what has been read of a line whose number
      is the host's. */
  ghost predicate Read(s: State, got: map<nat, int>, number: Option<nat>, q: nat) {
    && (number.None? ==> forall i :: 0 <= i < ANSWERS ==> i !in got)
    && (number == Some(q) ==> s.repSeq == q && forall i :: i in got && i < ANSWERS ==> got[i] == s.rep[i])
  }

  ghost predicate Inv(w: Work, s: State) {
    && s.repSeq <= s.reqSeq && s.last <= s.reqSeq
    && (s.card.Writing? ==> forall i :: 0 <= i < ANSWERS && i in s.card.written ==> s.rep[i] == s.card.answer[i])
    && match s.host
       case Idle => true
       case Staging(q, r, done) => q == s.reqSeq + 1 && forall i :: 0 <= i < FIELDS && i in done ==> s.req[i] == r[i]
       case Waiting(q, r) => Served(w, s, q, r)
       case Reading(q, r, got, number) => Served(w, s, q, r) && Read(s, got, number, q)
  }

  /** Every reply returned was computed from that call's own request. */
  ghost predicate LogOk(w: Work, s: State) {
    forall i :: 0 <= i < |s.log| ==> Own(w, s.log[i].0, s.log[i].1)
  }

  /** The worker may start anew, and the window may hold old lines. */
  ghost predicate Init(s: State) {
    s.repSeq <= s.reqSeq && s.last <= s.reqSeq && s.host.Idle? && s.card.Polling? && s.log == []
  }

  /** No field is read before the number. */
  ghost predicate NumberFirst(early: set<nat>) {
    forall i :: 0 <= i < ANSWERS ==> i !in early
  }

  lemma HostKeeps(early: set<nat>, w: Work, s: State, a: Action)
    requires NumberFirst(early) && Inv(w, s) && LogOk(w, s) && Can(early, s, a) && ByHost(a)
    ensures Inv(w, Step(early, w, s, a)) && LogOk(w, Step(early, w, s, a))
  {
    hide Own;
    if a.Ring? {
      assert s.req == s.host.r;
    } else if a.Return? {
      assert ReplyOf(s.host.got) == s.rep;
    }
  }

  lemma CardKeeps(early: set<nat>, w: Work, s: State, a: Action)
    requires Inv(w, s) && LogOk(w, s) && Can(early, s, a) && !ByHost(a)
    ensures Inv(w, Step(early, w, s, a)) && LogOk(w, Step(early, w, s, a))
  {
    if a.Echo? {
      assert s.rep == s.card.answer;
    } else if a.Compute? && (s.host.Waiting? || s.host.Reading?) && s.last == s.host.q {
      assert RequestOf(s.card.copied) == s.host.r;
      assert Own(w, s.host.r, w(s.host.r, a.salt));
    }
  }

  lemma {:induction false} RunKeeps(early: set<nat>, w: Work, s: State, acts: seq<Action>)
    requires NumberFirst(early) && Inv(w, s) && LogOk(w, s) && CanRun(early, w, s, acts)
    ensures Inv(w, Run(early, w, s, acts)) && LogOk(w, Run(early, w, s, acts))
    decreases |acts|
  {
    hide Inv, LogOk, Step, Can, NumberFirst;
    if acts != [] {
      if ByHost(acts[0]) { HostKeeps(early, w, s, acts[0]); } else { CardKeeps(early, w, s, acts[0]); }
      RunKeeps(early, w, Step(early, w, s, acts[0]), acts[1..]);
    }
  }

  /** Over every interleaving, with any requests given up on, a reply that is
      returned is the call's own: no late one is taken for a later request. */
  lemma EveryRun(early: set<nat>, w: Work, s: State, acts: seq<Action>)
    requires NumberFirst(early) && Init(s) && CanRun(early, w, s, acts)
    ensures LogOk(w, Run(early, w, s, acts))
  {
    RunKeeps(early, w, s, acts);
  }

  // ---- a field read before the number ----

  /** Some run leads from one state to another. */
  ghost predicate Reaches(early: set<nat>, w: Work, s: State, n: State) {
    exists acts :: CanRun(early, w, s, acts) && Run(early, w, s, acts) == n
  }

  lemma ReachSelf(early: set<nat>, w: Work, s: State)
    ensures Reaches(early, w, s, s)
  {
    assert CanRun(early, w, s, []) && Run(early, w, s, []) == s;
  }

  lemma {:induction false} RunThen(early: set<nat>, w: Work, s: State, acts: seq<Action>, a: Action)
    requires CanRun(early, w, s, acts) && Can(early, Run(early, w, s, acts), a)
    ensures CanRun(early, w, s, acts + [a])
    ensures Run(early, w, s, acts + [a]) == Step(early, w, Run(early, w, s, acts), a)
    decreases |acts|
  {
    hide Can, Step;
    var all := acts + [a];
    if acts == [] {
      assert all == [a] && all[1..] == [];
      var n := Step(early, w, s, a);
      assert CanRun(early, w, n, []) && Run(early, w, n, []) == n;
    } else {
      RunThen(early, w, Step(early, w, s, acts[0]), acts[1..], a);
      assert all[0] == acts[0] && all[1..] == acts[1..] + [a];
    }
  }

  /** One step more. */
  lemma ReachThen(early: set<nat>, w: Work, s: State, n: State, a: Action)
    requires Reaches(early, w, s, n) && Can(early, n, a)
    ensures Reaches(early, w, s, Step(early, w, n, a))
  {
    hide Can, Step, CanRun, Run;
    var acts :| CanRun(early, w, s, acts) && Run(early, w, s, acts) == n;
    RunThen(early, w, s, acts, a);
  }

  function Below(n: nat): set<nat> {
    if n == 0 then {} else Below(n - 1) + {n - 1}
  }

  lemma {:induction false} BelowAll(n: nat)
    ensures forall i: nat :: i in Below(n) <==> i < n
  {
    if n > 0 { BelowAll(n - 1); }
  }

  /** The words below `n`, each `x`. */
  function Same(n: nat, x: int): map<nat, int> {
    if n == 0 then map[] else Same(n - 1, x)[n - 1 := x]
  }

  lemma {:induction false} SameAll(n: nat, x: int)
    ensures forall i: nat :: i in Same(n, x) <==> i < n
    ensures forall i: nat :: i in Same(n, x) ==> Same(n, x)[i] == x
  {
    if n > 0 { SameAll(n - 1, x); }
  }

  function Ask(): Request {
    seq(FIELDS, _ => 0)
  }

  /** A reply whose words below `n` are ones, the rest zeroes. */
  function Ones(n: nat): Reply {
    seq(ANSWERS, i => if i < n then 1 else 0)
  }

  /** The window and the worker at rest, the reply line all zeroes. */
  function Rest(): State {
    State(0, Ask(), 0, Ones(0), Idle, Polling, 0, [])
  }

  lemma {:induction false} StageWords(early: set<nat>, w: Work, n: nat)
    requires n <= FIELDS
    ensures Reaches(early, w, Rest(), Rest().(host := Staging(1, Ask(), Below(n))))
  {
    hide Reaches;
    if n == 0 {
      ReachSelf(early, w, Rest());
      ReachThen(early, w, Rest(), Rest(), Begin(Ask()));
    } else {
      StageWords(early, w, n - 1);
      var t := Rest().(host := Staging(1, Ask(), Below(n - 1)));
      ReachThen(early, w, Rest(), t, Stage(n - 1));
      assert t.req[n - 1 := Ask()[n - 1]] == t.req;
    }
  }

  /** The early fields below `n`, read as zeroes. */
  function EarlyWords(early: set<nat>, n: nat): map<nat, int> {
    if n == 0 then map[] else if n - 1 in early then EarlyWords(early, n - 1)[n - 1 := 0] else EarlyWords(early, n - 1)
  }

  lemma {:induction false} EarlyAll(early: set<nat>, n: nat)
    ensures forall i: nat :: i in EarlyWords(early, n) <==> i < n && i in early
    ensures forall i: nat :: i in EarlyWords(early, n) ==> EarlyWords(early, n)[i] == 0
  {
    if n > 0 { EarlyAll(early, n - 1); }
  }

  /** The request rung, the line's early fields below `n` read. */
  ghost function Asked(early: set<nat>, n: nat): State {
    Rest().(reqSeq := 1, host := Reading(1, Ask(), EarlyWords(early, n), None))
  }

  lemma {:induction false} ReadEarly(early: set<nat>, w: Work, n: nat)
    requires n <= ANSWERS
    ensures Reaches(early, w, Rest(), Asked(early, n))
  {
    hide Reaches;
    if n == 0 {
      StageWords(early, w, FIELDS);
      BelowAll(FIELDS);
      var t := Rest().(host := Staging(1, Ask(), Below(FIELDS)));
      ReachThen(early, w, Rest(), t, Ring);
      ReachThen(early, w, Rest(), Step(early, w, t, Ring), Look);
    } else {
      ReadEarly(early, w, n - 1);
      EarlyAll(early, n - 1);
      if n - 1 in early { ReachThen(early, w, Rest(), Asked(early, n - 1), ReadField(n - 1)); }
    }
  }

  lemma {:induction false} CopyWords(early: set<nat>, w: Work, n: nat)
    requires n <= FIELDS
    ensures Reaches(early, w, Rest(), Asked(early, ANSWERS).(last := 1, card := Copying(Same(n, 0))))
  {
    hide Reaches, EarlyWords;
    if n == 0 {
      ReadEarly(early, w, ANSWERS);
      ReachThen(early, w, Rest(), Asked(early, ANSWERS), Poll);
    } else {
      CopyWords(early, w, n - 1);
      ReachThen(early, w, Rest(), Asked(early, ANSWERS).(last := 1, card := Copying(Same(n - 1, 0))), Copy(n - 1));
    }
  }

  /** The reply's words below `n` written. */
  ghost function Answered(early: set<nat>, n: nat): State {
    Asked(early, ANSWERS).(last := 1, rep := Ones(n), card := Writing(Ones(ANSWERS), Below(n)))
  }

  /** A worker that answers every request with ones. */
  ghost predicate AnswersOnes(w: Work) {
    forall r, salt :: w(r, salt) == Ones(ANSWERS)
  }

  lemma {:induction false} AnswerWords(early: set<nat>, w: Work, n: nat)
    requires n <= ANSWERS && AnswersOnes(w)
    ensures Reaches(early, w, Rest(), Answered(early, n))
  {
    hide Reaches, EarlyWords;
    if n == 0 {
      CopyWords(early, w, FIELDS);
      SameAll(FIELDS, 0);
      ReachThen(early, w, Rest(), Asked(early, ANSWERS).(last := 1, card := Copying(Same(FIELDS, 0))), Compute(0));
    } else {
      AnswerWords(early, w, n - 1);
      ReachThen(early, w, Rest(), Answered(early, n - 1), Answer(n - 1));
      assert Ones(n - 1)[n - 1 := 1] == Ones(n);
    }
  }

  /** The fields not early below `n`, read as ones, over the early ones. */
  function LateWords(early: set<nat>, n: nat): map<nat, int> {
    if n == 0 then EarlyWords(early, ANSWERS)
    else if n - 1 in early then LateWords(early, n - 1) else LateWords(early, n - 1)[n - 1 := 1]
  }

  lemma {:induction false} LateAll(early: set<nat>, n: nat)
    requires n <= ANSWERS
    ensures forall i: nat :: i in LateWords(early, n) <==> i < ANSWERS && (i in early || i < n)
    ensures forall i: nat :: i in LateWords(early, n) ==> LateWords(early, n)[i] == if i in early then 0 else 1
  {
    if n > 0 { LateAll(early, n - 1); } else { EarlyAll(early, ANSWERS); }
  }

  /** The answer complete, the number read, and the late fields below `n`. */
  ghost function Torn(early: set<nat>, n: nat): State {
    State(1, Ask(), 1, Ones(ANSWERS), Reading(1, Ask(), LateWords(early, n), Some(1)), Polling, 1, [])
  }

  lemma {:induction false} ReadLate(early: set<nat>, w: Work, n: nat)
    requires n <= ANSWERS && AnswersOnes(w)
    ensures Reaches(early, w, Rest(), Torn(early, n))
  {
    hide Reaches, EarlyWords;
    if n == 0 {
      AnswerWords(early, w, ANSWERS);
      BelowAll(ANSWERS);
      EarlyAll(early, ANSWERS);
      var t := Answered(early, ANSWERS);
      ReachThen(early, w, Rest(), t, Echo);
      ReachThen(early, w, Rest(), Step(early, w, t, Echo), ReadNumber);
    } else {
      ReadLate(early, w, n - 1);
      LateAll(early, n - 1);
      if n - 1 !in early { ReachThen(early, w, Rest(), Torn(early, n - 1), ReadField(n - 1)); }
    }
  }

  /** A field read early can be the previous reply's, and is returned. */
  lemma EarlyFieldStale(early: set<nat>, w: Work)
    requires !NumberFirst(early) && AnswersOnes(w)
    ensures exists n :: Reaches(early, w, Rest(), n) && !LogOk(w, n)
  {
    hide Reaches, LateWords;
    ReadLate(early, w, ANSWERS);
    LateAll(early, ANSWERS);
    var t := Torn(early, ANSWERS);
    ReachThen(early, w, Rest(), t, Return);
    var n := Step(early, w, t, Return);
    var i :| 0 <= i < ANSWERS && i in early;
    assert n.log[0].1[i] == 0;
    assert !Own(w, n.log[0].0, n.log[0].1) by {
      forall salt ensures n.log[0].1 != w(n.log[0].0, salt) { assert w(n.log[0].0, salt)[i] == 1; }
    }
  }

  /** With this worker every run returns only own replies. */
  ghost predicate Trusty(early: set<nat>, w: Work) {
    forall s, acts :: Init(s) && CanRun(early, w, s, acts) ==> LogOk(w, Run(early, w, s, acts))
  }

  ghost function OnesWorker(): (w: Work)
    ensures AnswersOnes(w)
  {
    (r: Request, salt: int) => Ones(ANSWERS)
  }

  /** So it is with every worker, exactly when the host reads the number
      before any field. */
  lemma OwnExactly(early: set<nat>)
    ensures NumberFirst(early) <==> forall w: Work :: Trusty(early, w)
  {
    hide LogOk, CanRun, Run, NumberFirst, OnesWorker;
    if NumberFirst(early) {
      forall w: Work, s, acts | Init(s) && CanRun(early, w, s, acts) ensures LogOk(w, Run(early, w, s, acts)) {
        EveryRun(early, w, s, acts);
      }
    } else {
      var w := OnesWorker();
      EarlyFieldStale(early, w);
      var n :| Reaches(early, w, Rest(), n) && !LogOk(w, n);
      var acts :| CanRun(early, w, Rest(), acts) && Run(early, w, Rest(), acts) == n;
      assert Init(Rest());
      assert !Trusty(early, w);
    }
  }
}
