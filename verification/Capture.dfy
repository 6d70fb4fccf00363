/** Capturing a child's standard error under a size limit and a deadline: the
    bounded reader, and the race between child, reader thread and parent. */
module Capturing {
  import opened Wrappers

  type Bytes = seq<bv8>

  datatype ChildEnd =
    | Exited(code: int)
    | TimedOut
    | SpawnFailed
    | WaitFailed
    | ReadFailed
    | OutputLimitExceeded

  datatype CapturedRun = CapturedRun(end: ChildEnd, stderr: string)

  function Failure(end: ChildEnd): CapturedRun {
    CapturedRun(end, "")
  }

  /** How much may be read, how long it may take in milliseconds, and the
      UTF-8 decoder. */
  datatype Terms = Terms(limit: nat, timeout: nat, decode: Bytes -> Option<string>)

  // ---- The bounded reader ----

  /** What one read of the pipe gives: an empty chunk is end of file. */
  datatype Read = Chunk(bytes: Bytes) | Broken

  datatype Reader =
    | Reading(held: Bytes)
    | Sent(result: Result<string, ChildEnd>)
    | Vanished

  function Decoded(terms: Terms, bytes: Bytes): Result<string, ChildEnd> {
    match terms.decode(bytes)
    case Some(text) => Ok(text)
    case None => Err(ReadFailed)
  }

  /** What one more read does to a reader that holds `held`. */
  function AfterRead(terms: Terms, held: Bytes, read: Read): Reader {
    match read
    case Broken => Sent(Err(ReadFailed))
    case Chunk(bytes) =>
      if bytes == [] then Sent(Decoded(terms, held))
      else if |held| + |bytes| > terms.limit then Sent(Err(OutputLimitExceeded))
      else Reading(held + bytes)
  }

  /** What a reader that holds `held` makes of the reads to come, the last of
      which is followed by end of file. */
  function Assembled(terms: Terms, held: Bytes, stream: seq<Read>): (r: Result<string, ChildEnd>)
    ensures r.Err? ==> r.error.ReadFailed? || r.error.OutputLimitExceeded?
    decreases |stream|
  {
    if stream == [] then Decoded(terms, held)
    else
      match AfterRead(terms, held, stream[0])
      case Reading(more) => Assembled(terms, more, stream[1..])
      case Sent(result) => result
      case Vanished => Err(ReadFailed)
  }

  method ReadBounded(terms: Terms, stream: seq<Read>) returns (result: Result<string, ChildEnd>)
    ensures result == Assembled(terms, [], stream)
  {
    var bytes := [];
    var next := 0;
    while next < |stream|
      invariant next <= |stream| && |bytes| <= terms.limit
      invariant Assembled(terms, [], stream) == Assembled(terms, bytes, stream[next..])
    {
      match stream[next] {
        case Broken => return Err(ReadFailed);
        case Chunk(chunk) =>
          if |chunk| == 0 {
            break;
          }
          if |chunk| > terms.limit - |bytes| {
            return Err(OutputLimitExceeded);
          }
          bytes := bytes + chunk;
          assert stream[next..][1..] == stream[next + 1..];
          next := next + 1;
      }
    }
    var text := terms.decode(bytes);
    result := if text.Some? then Ok(text.value) else Err(ReadFailed);
  }

  /** The bytes of reads that are all data. */
  function Joined(stream: seq<Read>): Bytes
    requires AllData(stream)
  {
    if stream == [] then [] else Joined(stream[..|stream| - 1]) + stream[|stream| - 1].bytes
  }

  predicate AllData(stream: seq<Read>) {
    forall r | r in stream :: r.Chunk? && r.bytes != []
  }

  lemma JoinedMore(stream: seq<Read>, last: Read)
    requires AllData(stream) && AllData([last])
    ensures AllData(stream + [last]) && Joined(stream + [last]) == Joined(stream) + last.bytes
  {
    assert last in [last];
    assert (stream + [last])[..|stream|] == stream;
  }

  lemma AllDataInside(stream: seq<Read>, i: nat, j: nat)
    requires AllData(stream) && i <= j <= |stream|
    ensures AllData(stream[i..j])
  {
  }

  lemma {:induction false} JoinedFirst(stream: seq<Read>)
    requires AllData(stream) && stream != []
    ensures AllData(stream[1..]) && Joined(stream) == stream[0].bytes + Joined(stream[1..])
  {
    hide Joined, AllData;
    var n := |stream| - 1;
    var last := stream[n];
    AllDataInside(stream, 1, n + 1);
    AllDataInside(stream, 0, n);
    AllDataInside(stream, n, n + 1);
    assert stream == stream[..n] + [last] && [last] == stream[n..n + 1];
    JoinedMore(stream[..n], last);
    if n == 0 {
      JoinedNone();
    } else {
      var middle := stream[..n][1..];
      AllDataInside(stream, 1, n);
      assert middle == stream[1..n] && stream[1..] == middle + [last];
      JoinedFirst(stream[..n]);
      JoinedMore(middle, last);
      assert stream[0].bytes + (Joined(middle) + last.bytes) == stream[0].bytes + Joined(middle) + last.bytes;
    }
  }

  lemma JoinedNone()
    ensures AllData([]) && Joined([]) == []
  {
  }

  /** What the whole of an unbroken stream comes to. */
  function WholeStream(terms: Terms, bytes: Bytes): Result<string, ChildEnd> {
    if |bytes| > terms.limit then Err(OutputLimitExceeded) else Decoded(terms, bytes)
  }

  lemma {:induction false} AssembledIsWhole(terms: Terms, held: Bytes, stream: seq<Read>)
    requires AllData(stream) && |held| <= terms.limit
    ensures Assembled(terms, held, stream) == WholeStream(terms, held + Joined(stream))
    decreases |stream|
  {
    if stream == [] {
      assert held + [] == held;
    } else {
      JoinedFirst(stream);
      var more := held + stream[0].bytes;
      assert held + Joined(stream) == more + Joined(stream[1..]);
      if |more| <= terms.limit {
        AssembledIsWhole(terms, more, stream[1..]);
      }
    }
  }

  /** However an unbroken stream is cut into chunks, the result is the same. */
  lemma ChunkingDoesNotMatter(terms: Terms, one: seq<Read>, other: seq<Read>)
    requires AllData(one) && AllData(other) && Joined(one) == Joined(other)
    ensures Assembled(terms, [], one) == Assembled(terms, [], other)
    ensures Assembled(terms, [], one) == WholeStream(terms, Joined(one))
  {
    AssembledIsWhole(terms, [], one);
    AssembledIsWhole(terms, [], other);
    assert [] + Joined(one) == Joined(one);
  }

  /** A read that fails matters only while the limit still holds. */
  lemma {:induction false} BrokenStream(terms: Terms, held: Bytes, stream: seq<Read>, rest: seq<Read>)
    requires AllData(stream) && |held| <= terms.limit
    ensures Assembled(terms, held, stream + [Broken] + rest)
            == Err(if |held| + |Joined(stream)| > terms.limit then OutputLimitExceeded else ReadFailed)
    decreases |stream|
  {
    if stream == [] {
      assert stream + [Broken] + rest == [Broken] + rest;
    } else {
      JoinedFirst(stream);
      assert (stream + [Broken] + rest)[1..] == stream[1..] + [Broken] + rest;
      var more := held + stream[0].bytes;
      if |more| <= terms.limit {
        BrokenStream(terms, more, stream[1..], rest);
      }
    }
  }

  // ---- The parent's polling loop ----

  /** What a look into the channel gives. */
  datatype Reception = Received(result: Result<string, ChildEnd>) | Disconnected | NothingYet

  /** What asking after the child gives; no code when a signal ended it. */
  datatype Waiting = Ended(status: Option<int>) | StillRunning | CannotTell

  /** The parent: still polling, or returned. */
  datatype Parent =
    | Watching(end: Option<int>, captured: Option<string>)
    | Returned(run: CapturedRun)

  /** The code reported for a status: its own, or -1 when a signal ended it. */
  ghost predicate Reports(status: Option<int>, code: int) {
    status == Some(code) || (status == None && code == -1)
  }

  function CodeOf(status: Option<int>): (code: int)
    ensures Reports(status, code)
  {
    match status case Some(code) => code case None => -1
  }

  function AfterReception(p: Parent, r: Reception): Parent
    requires p.Watching?
  {
    match r
    case Received(Ok(text)) => Watching(p.end, Some(text))
    case Received(Err(error)) => Returned(Failure(error))
    case Disconnected => if p.captured.None? then Returned(Failure(ReadFailed)) else p
    case NothingYet => p
  }

  function AfterWaiting(p: Parent, w: Waiting): Parent
    requires p.Watching?
  {
    if p.end.Some? then p
    else
      match w
      case Ended(status) => Watching(Some(CodeOf(status)), p.captured)
      case StillRunning => p
      case CannotTell => Returned(Failure(WaitFailed))
  }

  function AfterClock(p: Parent, late: bool): Parent
    requires p.Watching?
  {
    if p.end.Some? && p.captured.Some? then Returned(CapturedRun(Exited(p.end.value), p.captured.value))
    else if late then Returned(Failure(TimedOut))
    else p
  }

  /** The answers one turn of the loop gets. */
  datatype Poll = Poll(reception: Reception, waiting: Waiting, late: bool)

  function AfterPoll(p: Parent, poll: Poll): Parent {
    if p.Returned? then p
    else
      var received := AfterReception(p, poll.reception);
      if received.Returned? then received
      else
        var waited := AfterWaiting(received, poll.waiting);
        if waited.Returned? then waited else AfterClock(waited, poll.late)
  }

  function AfterPolls(p: Parent, polls: seq<Poll>): Parent
    decreases |polls|
  {
    if polls == [] then p else AfterPolls(AfterPoll(p, polls[0]), polls[1..])
  }

  lemma {:induction false} ReturnedStays(run: CapturedRun, polls: seq<Poll>)
    ensures AfterPolls(Returned(run), polls) == Returned(run)
  {
    if polls != [] {
      ReturnedStays(run, polls[1..]);
    }
  }

  lemma {:induction false} AfterPollsSplits(p: Parent, a: seq<Poll>, b: seq<Poll>)
    ensures AfterPolls(p, a + b) == AfterPolls(AfterPolls(p, a), b)
    decreases |a|
  {
    if a == [] {
      assert a + b == b;
    } else {
      assert (a + b)[1..] == a[1..] + b;
      AfterPollsSplits(AfterPoll(p, a[0]), a[1..], b);
    }
  }

  /** The child as its parent holds it. What it answers comes from outside;
      whether it was told to end, and whether its end has been collected, is
      what the parent's calls make of it. */
  class ChildHandle {
    var killed: bool
    var reaped: bool

    constructor ()
      ensures !killed && !reaped
    {
      killed, reaped := false, false;
    }

    method Kill()
      modifies this`killed
      ensures killed
    {
      killed := true;
    }

    /** Blocks until the child has ended. */
    method Wait()
      modifies this`reaped
      ensures reaped
    {
      reaped := true;
    }

    /** Asks after the child without blocking. */
    method TryWait(waiting: Waiting) returns (answer: Waiting)
      modifies this`reaped
      ensures answer == waiting && (reaped <==> old(reaped) || waiting.Ended?)
    {
      reaped := reaped || waiting.Ended?;
      answer := waiting;
    }
  }

  /** What the reader reports as an error is never an exit. */
  ghost predicate ErrorsAreFailures(polls: seq<Poll>) {
    forall poll | poll in polls && poll.reception.Received? && poll.reception.result.Err? ::
      !poll.reception.result.error.Exited?
  }

  /** The first answer that says that the child has ended. */
  ghost predicate FirstEnded(polls: seq<Poll>, i: int) {
    0 <= i < |polls| && polls[i].waiting.Ended? && forall j | 0 <= j < i :: !polls[j].waiting.Ended?
  }

  /** An exit is the one that was asked after first. */
  lemma {:induction false} ExitWasAsked(p: Parent, polls: seq<Poll>)
    requires p.Watching? && ErrorsAreFailures(polls)
    requires AfterPolls(p, polls).Returned? && AfterPolls(p, polls).run.end.Exited?
    ensures var code := AfterPolls(p, polls).run.end.code;
            if p.end.Some? then p.end.value == code
            else exists i :: FirstEnded(polls, i) && Reports(polls[i].waiting.status, code)
    decreases |polls|
  {
    hide Reports;
    var next, rest := AfterPoll(p, polls[0]), polls[1..];
    var code := AfterPolls(p, polls).run.end.code;
    assert polls[0] in polls && forall poll | poll in rest :: poll in polls;
    if next.Returned? {
      ReturnedStays(next.run, rest);
      assert p.end.None? ==> FirstEnded(polls, 0);
    } else {
      ExitWasAsked(next, rest);
      if p.end.None? && next.end.Some? {
        assert FirstEnded(polls, 0);
      } else if p.end.None? {
        var i :| FirstEnded(rest, i) && Reports(rest[i].waiting.status, code);
        assert polls[i + 1] == rest[i] && FirstEnded(polls, i + 1);
      }
    }
  }

  lemma ExitIsTheFirstEnded(polls: seq<Poll>)
    requires ErrorsAreFailures(polls)
    ensures var p := AfterPolls(Watching(None, None), polls);
            p.Returned? && p.run.end.Exited? ==>
              exists i :: FirstEnded(polls, i) && Reports(polls[i].waiting.status, p.run.end.code)
  {
    hide FirstEnded, Reports, AfterPoll;
    if AfterPolls(Watching(None, None), polls).Returned? && AfterPolls(Watching(None, None), polls).run.end.Exited? {
      ExitWasAsked(Watching(None, None), polls);
    }
  }

  /** The loop over the answers its turns get. It returns a run, or nothing
      while every answer so far let it go on. Whenever it returns, the child's
      end has been collected; and it was told to end unless it did by itself. */
  method Watch(child: ChildHandle, polls: seq<Poll>) returns (run: Option<CapturedRun>)
    requires !child.killed && !child.reaped
    modifies child
    ensures AfterPolls(Watching(None, None), polls).Returned? <==> run.Some?
    ensures run.Some? ==> AfterPolls(Watching(None, None), polls) == Returned(run.value)
    ensures run.Some? ==> child.reaped
    ensures ErrorsAreFailures(polls) && run.Some? && run.value.end.Exited? ==>
              exists i :: FirstEnded(polls, i) && Reports(polls[i].waiting.status, run.value.end.code)
    ensures ErrorsAreFailures(polls) ==> (child.killed <==> run.Some? && !run.value.end.Exited?)
  {
    hide AfterPoll, FirstEnded, Reports;
    if ErrorsAreFailures(polls) {
      ExitIsTheFirstEnded(polls);
    }
    var end: Option<int>, captured: Option<string> := None, None;
    for i := 0 to |polls|
      invariant !child.killed && (child.reaped <==> end.Some?)
      invariant AfterPolls(Watching(None, None), polls) == AfterPolls(Watching(end, captured), polls[i..])
    {
      ghost var before := Watching(end, captured);
      assert polls[i..][1..] == polls[i + 1..];
      var poll := polls[i];
      TurnsReturn(before, poll, polls[i + 1..]);
      match poll.reception {
        case Received(Ok(text)) => captured := Some(text);
        case Received(Err(error)) =>
          TurnEndsEarly(before, poll);
          child.Kill();
          child.Wait();
          return Some(Failure(error));
        case Disconnected =>
          if captured.None? {
            TurnEndsEarly(before, poll);
            child.Kill();
            child.Wait();
            return Some(Failure(ReadFailed));
          }
        case NothingYet =>
      }
      if end.None? {
        var answer := child.TryWait(poll.waiting);
        match answer {
          case Ended(status) => end := Some(CodeOf(status));
          case StillRunning =>
          case CannotTell =>
            TurnEndsWithoutStatus(before, poll);
            child.Kill();
            child.Wait();
            return Some(Failure(WaitFailed));
        }
      }
      TurnGoesOn(before, poll, end, captured);
      if end.Some? && captured.Some? {
        return Some(CapturedRun(Exited(end.value), captured.value));
      }
      if poll.late {
        child.Kill();
        child.Wait();
        return Some(Failure(TimedOut));
      }
    }
    assert polls[|polls|..] == [];
    run := None;
  }

  lemma TurnsReturn(p: Parent, poll: Poll, rest: seq<Poll>)
    ensures AfterPoll(p, poll).Returned? ==> AfterPolls(AfterPoll(p, poll), rest) == AfterPoll(p, poll)
  {
    if AfterPoll(p, poll).Returned? {
      ReturnedStays(AfterPoll(p, poll).run, rest);
    }
  }

  lemma TurnEndsEarly(p: Parent, poll: Poll)
    requires p.Watching? && AfterReception(p, poll.reception).Returned?
    ensures AfterPoll(p, poll) == AfterReception(p, poll.reception)
  {
  }

  lemma TurnEndsWithoutStatus(p: Parent, poll: Poll)
    requires p.Watching? && AfterReception(p, poll.reception).Watching?
    requires p.end.None? && poll.waiting.CannotTell?
    ensures AfterPoll(p, poll) == Returned(Failure(WaitFailed))
  {
  }

  lemma TurnGoesOn(p: Parent, poll: Poll, end: Option<int>, captured: Option<string>)
    requires p.Watching? && AfterReception(p, poll.reception).Watching?
    requires AfterWaiting(AfterReception(p, poll.reception), poll.waiting) == Watching(end, captured)
    ensures AfterPoll(p, poll) == AfterClock(Watching(end, captured), poll.late)
  {
  }

  // ---- Everything that runs at once ----

  datatype Child =
    | Running
    | Zombie(status: Option<int>)
    | Reaped(status: Option<int>, killed: bool)

  /** Where the parent is within a turn. */
  datatype Place = AtReceive | AtWait | AtClock | AtSleep

  /** The whole system. `stream` is the history of the pipe, `pending` says that
      a sent result has not been received, `closed` that the reader's end of
      the channel is gone, `unsure` that asking after the child has failed;
      `heard` and `asked` are the answers of the turn the parent is in, and
      `polls` those of its completed turns. */
  datatype State = State(
    parent: Parent,
    place: Place,
    child: Child,
    piped: bool,
    reader: Reader,
    stream: seq<Read>,
    pending: bool,
    closed: bool,
    unsure: bool,
    clock: nat,
    heard: Reception,
    asked: Waiting,
    polls: seq<Poll>)

  function Begun(piped: bool): State {
    if piped then
      State(Watching(None, None), AtReceive, Running, true, Reading([]), [], false, false, false, 0,
            NothingYet, StillRunning, [])
    else
      State(Returned(Failure(ReadFailed)), AtReceive, Reaped(None, true), false, Vanished, [], false, true, false, 0,
            NothingYet, StillRunning, [])
  }

  /** What anyone may do next. A kill leaves the child without a status, and
      a child that ended by itself before it keeps the status it had. */
  datatype Action =
    | ChildExits(status: Option<int>)
    | ReaderReads(read: Read)
    | ReaderVanishes
    | ReaderCloses
    | ParentReceives
    | ParentWaits(unsure: bool)
    | ParentChecksClock
    | ParentSleeps(milliseconds: nat)
    | TimePasses(milliseconds: nat)

  const SLEEP: nat := 5

  predicate Enabled(s: State, a: Action) {
    match a
    case ChildExits(_) => s.child.Running?
    case ReaderReads(_) => s.reader.Reading?
    case ReaderVanishes => s.reader.Reading?
    case ReaderCloses => !s.reader.Reading? && !s.closed
    case ParentReceives => s.parent.Watching? && s.place.AtReceive?
    case ParentWaits(_) => s.parent.Watching? && s.place.AtWait?
    case ParentChecksClock => s.parent.Watching? && s.place.AtClock?
    case ParentSleeps(ms) => s.parent.Watching? && s.place.AtSleep? && ms >= SLEEP
    case TimePasses(_) => true
  }

  function Look(s: State): Reception {
    if s.pending && s.reader.Sent? then Received(s.reader.result)
    else if s.closed then Disconnected
    else NothingYet
  }

  function Ask(s: State, unsure: bool): Waiting {
    if unsure then CannotTell
    else match s.child
      case Running => StillRunning
      case Zombie(status) => Ended(status)
      case Reaped(status, _) => Ended(status)
  }

  function Killed(child: Child): Child {
    match child
    case Running => Reaped(None, true)
    case Zombie(status) => Reaped(status, true)
    case Reaped(_, _) => child
  }

  /** A parent that returns a failure kills the child and waits for it first. */
  function Settled(s: State, next: Parent, place: Place): State {
    s.(parent := next, place := place, child := if next.Returned? then Killed(s.child) else s.child)
  }

  /** The turn the parent is in, once it is over. */
  function TurnOver(s: State, late: bool): State {
    s.(polls := s.polls + [Poll(s.heard, s.asked, late)])
  }

  function Receive(s: State): State
    requires s.parent.Watching?
  {
    var heard := Look(s);
    var next := AfterReception(s.parent, heard);
    var told := Settled(s, next, AtWait).(pending := s.pending && !heard.Received?, heard := heard);
    if next.Returned? then TurnOver(told, false) else told
  }

  function Wait(s: State, unsure: bool): State
    requires s.parent.Watching?
  {
    var asked := Ask(s, unsure);
    var asking := s.parent.end.None?;
    var next := AfterWaiting(s.parent, asked);
    var reaped := if asking && asked.Ended? && s.child.Zombie? then s.(child := Reaped(s.child.status, false)) else s;
    var told := Settled(reaped, next, AtClock).(asked := asked, unsure := s.unsure || (asking && unsure));
    if next.Returned? then TurnOver(told, false) else told
  }

  function CheckClock(terms: Terms, s: State): State
    requires s.parent.Watching?
  {
    var late := s.clock >= terms.timeout;
    TurnOver(Settled(s, AfterClock(s.parent, late), AtSleep), late)
  }

  function After(terms: Terms, s: State, a: Action): State
    requires Enabled(s, a)
  {
    match a
    case ChildExits(status) => s.(child := Zombie(status))
    case ReaderReads(read) =>
      var next := AfterRead(terms, s.reader.held, read);
      s.(reader := next, stream := s.stream + [read], pending := next.Sent?)
    case ReaderVanishes => s.(reader := Vanished, closed := true)
    case ReaderCloses => s.(closed := true)
    case ParentReceives => Receive(s)
    case ParentWaits(unsure) => Wait(s, unsure)
    case ParentChecksClock => CheckClock(terms, s)
    case ParentSleeps(ms) => s.(clock := s.clock + ms, place := AtReceive)
    case TimePasses(ms) => s.(clock := s.clock + ms)
  }

  /** The states reached by some schedule of actions. */
  ghost predicate Reachable(terms: Terms, piped: bool, schedule: seq<Action>, s: State)
    decreases |schedule|
  {
    if schedule == [] then s == Begun(piped)
    else
      var n := |schedule| - 1;
      exists before: State ::
        && Reachable(terms, piped, schedule[..n], before)
        && Enabled(before, schedule[n])
        && s == After(terms, before, schedule[n])
  }

  /** The last read of the stream is the one that settled the result. */
  ghost predicate EndedWith(terms: Terms, stream: seq<Read>, result: Result<string, ChildEnd>) {
    stream != [] &&
    var n := |stream| - 1;
    AllData(stream[..n]) && |Joined(stream[..n])| <= terms.limit &&
    AfterRead(terms, Joined(stream[..n]), stream[n]) == Sent(result)
  }

  /** The reader is where the reads of the pipe so far have taken it. */
  ghost predicate ReaderTrue(terms: Terms, reader: Reader, stream: seq<Read>) {
    match reader
    case Reading(held) => AllData(stream) && held == Joined(stream) && |held| <= terms.limit
    case Sent(result) => EndedWith(terms, stream, result)
    case Vanished => true
  }

  ghost predicate ChannelTrue(s: State) {
    && (s.pending ==> s.reader.Sent?)
    && (s.closed ==> !s.reader.Reading?)
    && (s.reader.Vanished? ==> s.closed)
    && (!s.piped ==> s.reader.Vanished?)
    && (s.reader.Sent? && s.reader.result.Err? ==>
          s.reader.result.error.ReadFailed? || s.reader.result.error.OutputLimitExceeded?)
  }

  /** A watching parent has exactly what it was told. */
  ghost predicate ParentTrue(s: State) {
    s.parent.Watching? ==>
      && s.piped
      && (s.parent.end.Some? <==> s.child.Reaped?)
      && (s.child.Reaped? ==> !s.child.killed && s.parent.end == Some(CodeOf(s.child.status)))
      && (s.parent.captured.Some? <==> s.reader.Sent? && !s.pending)
      && (s.parent.captured.Some? ==> s.reader.result == Ok(s.parent.captured.value))
  }

  /** Every end a run can have, with what must have happened for it. */
  ghost predicate Explained(terms: Terms, s: State, run: CapturedRun) {
    match run.end
    case Exited(code) =>
      && s.reader == Sent(Ok(run.stderr)) && !s.pending
      && s.child.Reaped? && !s.child.killed && code == CodeOf(s.child.status)
    case TimedOut => run.stderr == "" && s.clock >= terms.timeout
    case SpawnFailed => false
    case WaitFailed => run.stderr == "" && s.unsure
    case ReadFailed => run.stderr == "" && (s.reader == Sent(Err(ReadFailed)) || s.reader == Vanished)
    case OutputLimitExceeded => run.stderr == "" && s.reader == Sent(Err(OutputLimitExceeded))
  }

  ghost predicate ReturnTrue(terms: Terms, s: State) {
    s.parent.Returned? ==> s.child.Reaped? && Explained(terms, s, s.parent.run)
  }

  /** The parent is where its loop takes it, given the answers it got. */
  ghost predicate LoopTrue(s: State) {
    s.piped ==>
      var p := AfterPolls(Watching(None, None), s.polls);
      if s.parent.Returned? || s.place.AtReceive? || s.place.AtSleep? then s.parent == p
      else
        && p.Watching?
        && var received := AfterReception(p, s.heard);
        && received.Watching?
        && s.parent == if s.place.AtWait? then received else AfterWaiting(received, s.asked)
  }

  /** Every turn but the one going on has slept. */
  ghost predicate TurnsTrue(terms: Terms, s: State) {
    s.parent.Watching? ==>
      if s.place.AtSleep? then
        s.polls != [] && SLEEP * (|s.polls| - 1) <= s.clock && SLEEP * (|s.polls| - 1) < terms.timeout
      else
        SLEEP * |s.polls| <= s.clock && (s.polls != [] ==> SLEEP * (|s.polls| - 1) < terms.timeout)
  }

  ghost predicate Inv(terms: Terms, s: State) {
    && ReaderTrue(terms, s.reader, s.stream) && ChannelTrue(s) && ParentTrue(s) && ReturnTrue(terms, s)
    && LoopTrue(s) && TurnsTrue(terms, s) && FewTurns(terms, s)
  }

  /** However long the reader stays alive, the parent is done by then. */
  ghost predicate FewTurns(terms: Terms, s: State) {
    s.polls == [] || SLEEP * (|s.polls| - 1) < terms.timeout + SLEEP
  }

  // ---- Every step keeps the invariant ----

  lemma OneMorePoll(p: Parent, polls: seq<Poll>, poll: Poll)
    ensures AfterPolls(p, polls + [poll]) == AfterPoll(AfterPolls(p, polls), poll)
  {
    AfterPollsSplits(p, polls, [poll]);
    assert [poll][1..] == [];
  }

  lemma BegunInv(terms: Terms, piped: bool)
    ensures Inv(terms, Begun(piped))
  {
  }

  lemma {:induction false} AssembledAfter(terms: Terms, held: Bytes, before: seq<Read>, read: Read)
    requires AllData(before) && |held| + |Joined(before)| <= terms.limit
    ensures Assembled(terms, held, before + [read]) == Assembled(terms, held + Joined(before), [read])
    decreases |before|
  {
    if before == [] {
      assert before + [read] == [read] && held + [] == held;
    } else {
      JoinedFirst(before);
      assert (before + [read])[1..] == before[1..] + [read];
      var more := held + before[0].bytes;
      assert more + Joined(before[1..]) == held + Joined(before);
      AssembledAfter(terms, more, before[1..], read);
    }
  }

  /** The reader thread computes what `ReadBounded` computes. */
  lemma EndedIsAssembled(terms: Terms, stream: seq<Read>, result: Result<string, ChildEnd>)
    requires EndedWith(terms, stream, result)
    ensures Assembled(terms, [], stream) == result
  {
    var n := |stream| - 1;
    var data, last := stream[..n], stream[n];
    assert stream == data + [last] && [] + Joined(data) == Joined(data);
    AssembledAfter(terms, [], data, last);
    if last == Chunk([]) {
      assert Assembled(terms, Joined(data), [last]) == result;
    }
  }

  lemma ReadKeepsReader(terms: Terms, s: State, read: Read)
    requires s.reader.Reading? && ReaderTrue(terms, s.reader, s.stream)
    ensures ReaderTrue(terms, AfterRead(terms, s.reader.held, read), s.stream + [read])
    ensures var next := AfterRead(terms, s.reader.held, read);
            next.Sent? && next.result.Err? ==> next.result.error.ReadFailed? || next.result.error.OutputLimitExceeded?
  {
    assert (s.stream + [read])[..|s.stream|] == s.stream;
  }

  lemma ReceiveKeepsInv(terms: Terms, s: State)
    requires Inv(terms, s) && Enabled(s, ParentReceives)
    ensures Inv(terms, Receive(s))
  {
    hide ReaderTrue, Assembled, Joined, AfterPolls, AllData;
    var next := Receive(s);
    if next.parent.Returned? {
      OneMorePoll(Watching(None, None), s.polls, Poll(next.heard, next.asked, false));
    }
  }

  lemma WaitKeepsWhatIsKnown(terms: Terms, s: State, unsure: bool)
    requires Inv(terms, s) && Enabled(s, ParentWaits(unsure))
    ensures var next := Wait(s, unsure);
            && ReaderTrue(terms, next.reader, next.stream) && ChannelTrue(next) && ParentTrue(next)
            && ReturnTrue(terms, next)
  {
    hide ReaderTrue, AfterPolls, LoopTrue, TurnsTrue, FewTurns;
  }

  lemma WaitKeepsTurns(terms: Terms, s: State, unsure: bool)
    requires Inv(terms, s) && Enabled(s, ParentWaits(unsure))
    ensures var next := Wait(s, unsure);
            LoopTrue(next) && TurnsTrue(terms, next) && FewTurns(terms, next)
  {
    hide ReaderTrue, AfterPolls, ChannelTrue, ReturnTrue, Killed;
    var next := Wait(s, unsure);
    if next.parent.Returned? {
      OneMorePoll(Watching(None, None), s.polls, Poll(next.heard, next.asked, false));
    }
  }

  lemma WaitKeepsInv(terms: Terms, s: State, unsure: bool)
    requires Inv(terms, s) && Enabled(s, ParentWaits(unsure))
    ensures Inv(terms, Wait(s, unsure))
  {
    hide ReaderTrue, ChannelTrue, ParentTrue, ReturnTrue, LoopTrue, TurnsTrue, FewTurns, Wait;
    WaitKeepsWhatIsKnown(terms, s, unsure);
    WaitKeepsTurns(terms, s, unsure);
  }

  lemma CheckClockKeepsInv(terms: Terms, s: State)
    requires Inv(terms, s) && Enabled(s, ParentChecksClock)
    ensures Inv(terms, CheckClock(terms, s))
  {
    hide ReaderTrue, Assembled, Joined, AfterPolls, AllData;
    OneMorePoll(Watching(None, None), s.polls, Poll(s.heard, s.asked, s.clock >= terms.timeout));
  }

  lemma VanishedIsTrue(terms: Terms, stream: seq<Read>)
    ensures ReaderTrue(terms, Vanished, stream)
  {
  }

  lemma StepKeepsInv(terms: Terms, s: State, a: Action)
    requires Inv(terms, s) && Enabled(s, a)
    ensures Inv(terms, After(terms, s, a))
  {
    hide ReaderTrue, Assembled, Joined, AfterPolls, AllData, Receive, Wait, CheckClock;
    match a
    case ReaderReads(read) =>
      hide AfterRead, AfterReception, Killed, AfterWaiting;
      ReadKeepsReader(terms, s, read);
    case ReaderVanishes => VanishedIsTrue(terms, s.stream);
    case ParentReceives => ReceiveKeepsInv(terms, s);
    case ParentWaits(unsure) => WaitKeepsInv(terms, s, unsure);
    case ParentChecksClock => CheckClockKeepsInv(terms, s);
    case _ =>
  }

  lemma {:induction false} ReachableInv(terms: Terms, piped: bool, schedule: seq<Action>, s: State)
    requires Reachable(terms, piped, schedule, s)
    ensures Inv(terms, s)
    decreases |schedule|
  {
    hide Inv, After, Enabled;
    if schedule == [] {
      BegunInv(terms, piped);
    } else {
      var n := |schedule| - 1;
      var before :| Reachable(terms, piped, schedule[..n], before) && Enabled(before, schedule[n]) &&
                    s == After(terms, before, schedule[n]);
      ReachableInv(terms, piped, schedule[..n], before);
      StepKeepsInv(terms, before, schedule[n]);
    }
  }

  // ---- What a captured run means ----

  /** What must have happened for a run to end as it did. Text comes only with
      the child's own exit, and is then all of what the pipe carried up to its
      end; everything else comes without text. */
  ghost predicate HasItsCause(terms: Terms, s: State, run: CapturedRun) {
    var n := |s.stream| - 1;
    match run.end
    case Exited(code) =>
      && s.child.Reaped? && !s.child.killed && Reports(s.child.status, code)
      && s.stream != [] && s.stream[n] == Chunk([]) && AllData(s.stream[..n])
      && |Joined(s.stream[..n])| <= terms.limit
      && terms.decode(Joined(s.stream[..n])) == Some(run.stderr)
    case TimedOut => run.stderr == "" && s.clock >= terms.timeout
    case SpawnFailed => false
    case WaitFailed => run.stderr == "" && s.unsure
    case ReadFailed =>
      run.stderr == "" &&
      (s.reader.Vanished? ||
       (s.stream != [] && AllData(s.stream[..n]) &&
        (s.stream[n].Broken? || (s.stream[n] == Chunk([]) && terms.decode(Joined(s.stream[..n])) == None))))
    case OutputLimitExceeded =>
      && run.stderr == "" && s.stream != [] && AllData(s.stream) && |Joined(s.stream)| > terms.limit
  }

  lemma JoinedLast(stream: seq<Read>)
    requires stream != [] && AllData(stream)
    ensures AllData(stream[..|stream| - 1])
    ensures Joined(stream) == Joined(stream[..|stream| - 1]) + stream[|stream| - 1].bytes
  {
  }

  lemma OverflowsTheLimit(terms: Terms, stream: seq<Read>)
    requires EndedWith(terms, stream, Err(OutputLimitExceeded))
    ensures stream != [] && AllData(stream) && |Joined(stream)| > terms.limit
  {
    hide Joined;
    var n := |stream| - 1;
    assert stream == stream[..n] + [stream[n]];
    JoinedLast(stream);
  }

  lemma FailsToRead(terms: Terms, stream: seq<Read>)
    requires EndedWith(terms, stream, Err(ReadFailed))
    ensures var n := |stream| - 1;
            stream != [] && AllData(stream[..n]) &&
            (stream[n].Broken? || (stream[n] == Chunk([]) && terms.decode(Joined(stream[..n])) == None))
  {
    hide Joined, AllData;
  }

  lemma ReadsItAll(terms: Terms, stream: seq<Read>, text: string)
    requires EndedWith(terms, stream, Ok(text))
    ensures var n := |stream| - 1;
            stream != [] && stream[n] == Chunk([]) && AllData(stream[..n]) &&
            |Joined(stream[..n])| <= terms.limit && terms.decode(Joined(stream[..n])) == Some(text)
  {
    hide Joined, AllData;
  }

  lemma ExplainedHasItsCause(terms: Terms, s: State, run: CapturedRun)
    requires ReaderTrue(terms, s.reader, s.stream) && Explained(terms, s, run) && s.child.Reaped?
    ensures HasItsCause(terms, s, run)
  {
    hide Joined, AllData, EndedWith;
    match run.end
    case Exited(_) => ReadsItAll(terms, s.stream, run.stderr);
    case ReadFailed => if !s.reader.Vanished? { FailsToRead(terms, s.stream); }
    case OutputLimitExceeded => OverflowsTheLimit(terms, s.stream);
    case _ =>
  }

  /** Under every schedule of child, reader, clock and parent, a run is returned
      only after the child has been waited on, and for the cause it names; and
      what the reader has sent is what the bounded read of its stream returns. */
  lemma CaptureIsSound(terms: Terms, piped: bool, schedule: seq<Action>, s: State)
    requires Reachable(terms, piped, schedule, s) && s.parent.Returned?
    ensures s.child.Reaped? && HasItsCause(terms, s, s.parent.run)
    ensures s.reader.Sent? ==> s.reader.result == Assembled(terms, [], s.stream)
  {
    hide Assembled, Joined, AfterPolls, AllData, HasItsCause, EndedWith;
    ReachableInv(terms, piped, schedule, s);
    if s.reader.Sent? {
      EndedIsAssembled(terms, s.stream, s.reader.result);
    }
    ExplainedHasItsCause(terms, s, s.parent.run);
  }

  /** A child that ended by itself did so with the status it has. */
  ghost predicate EndedAs(child: Child, schedule: seq<Action>) {
    match child
    case Running => true
    case Zombie(status) => ChildExits(status) in schedule
    case Reaped(status, killed) => killed || ChildExits(status) in schedule
  }

  lemma EndedAsLater(child: Child, schedule: seq<Action>, a: Action)
    requires EndedAs(child, schedule)
    ensures EndedAs(child, schedule + [a]) && EndedAs(Killed(child), schedule + [a])
  {
  }

  /** What a step can do to the child: end it, collect its end, or kill it. */
  ghost predicate ChildGoesOn(before: Child, a: Action, after: Child) {
    || after == before
    || after == Killed(before)
    || (a.ChildExits? && after == Zombie(a.status))
    || (before.Zombie? && after == Reaped(before.status, false))
  }

  lemma WaitCollects(s: State, unsure: bool)
    requires s.parent.Watching?
    ensures var child := Wait(s, unsure).child;
            child == s.child || child == Killed(s.child) ||
            (s.child.Zombie? && child == Reaped(s.child.status, false))
  {
  }

  lemma StepKeepsStatus(terms: Terms, s: State, a: Action)
    requires Enabled(s, a)
    ensures ChildGoesOn(s.child, a, After(terms, s, a).child)
  {
    hide Look, AfterReception, AfterWaiting, AfterClock, AfterRead, Wait, Killed;
    if a.ParentWaits? {
      WaitCollects(s, a.unsure);
    }
  }

  lemma {:induction false} StatusIsTheChilds(terms: Terms, piped: bool, schedule: seq<Action>, s: State)
    requires Reachable(terms, piped, schedule, s)
    ensures EndedAs(s.child, schedule)
    decreases |schedule|
  {
    hide After, Enabled;
    if schedule != [] {
      var n := |schedule| - 1;
      var before :| Reachable(terms, piped, schedule[..n], before) && Enabled(before, schedule[n]) &&
                    s == After(terms, before, schedule[n]);
      StatusIsTheChilds(terms, piped, schedule[..n], before);
      assert schedule == schedule[..n] + [schedule[n]];
      EndedAsLater(before.child, schedule[..n], schedule[n]);
      StepKeepsStatus(terms, before, schedule[n]);
    }
  }

  /** Under every schedule an exit is reported only with the code with which
      the child exited by itself, or with -1 when a signal ended it. */
  lemma ExitCodeIsTheChilds(terms: Terms, piped: bool, schedule: seq<Action>, s: State)
    requires Reachable(terms, piped, schedule, s) && s.parent.Returned? && s.parent.run.end.Exited?
    ensures exists status: Option<int> ::
              ChildExits(status) in schedule && s.child == Reaped(status, false) &&
              (status == Some(s.parent.run.end.code) || (status == None && s.parent.run.end.code == -1))
  {
    hide Reachable, Assembled, Joined, AfterPolls, AllData;
    CaptureIsSound(terms, piped, schedule, s);
    StatusIsTheChilds(terms, piped, schedule, s);
    assert s.child == Reaped(s.child.status, false);
  }

  /** What the parent finds at its turn it reports: a failed reading, a reader
      that is gone, a child that cannot be asked after, an exit with all its
      text, or else the deadline. */
  lemma FindingsAreReported(terms: Terms, s: State, unsure: bool)
    requires s.parent.Watching?
    ensures s.place.AtReceive? ==>
              var after := After(terms, s, ParentReceives).parent;
              && (s.pending && s.reader.Sent? && s.reader.result.Err? ==>
                    after == Returned(Failure(s.reader.result.error)))
              && (!s.pending && s.closed && s.parent.captured.None? ==> after == Returned(Failure(ReadFailed)))
    ensures s.place.AtWait? && s.parent.end.None? ==>
              (unsure <==> After(terms, s, ParentWaits(unsure)).parent == Returned(Failure(WaitFailed)))
    ensures s.place.AtClock? ==>
              var after := After(terms, s, ParentChecksClock).parent;
              if s.parent.end.Some? && s.parent.captured.Some? then
                after == Returned(CapturedRun(Exited(s.parent.end.value), s.parent.captured.value))
              else
                (s.clock >= terms.timeout <==> after == Returned(Failure(TimedOut)))
  {
  }

  /** Once the text has been received, no reading failure is reported. */
  lemma NoReadFailureAfterText(terms: Terms, piped: bool, schedule: seq<Action>, s: State)
    requires Reachable(terms, piped, schedule, s) && s.parent.Returned?
    requires s.reader.Sent? && s.reader.result.Ok? && !s.pending
    ensures s.parent.run.end.Exited? || s.parent.run.end.TimedOut? || s.parent.run.end.WaitFailed?
  {
    hide Assembled, Joined, AfterPolls, AllData;
    ReachableInv(terms, piped, schedule, s);
  }

  /** What was returned stays returned, whatever the others go on doing. */
  lemma RunIsFinal(terms: Terms, s: State, a: Action)
    requires s.parent.Returned? && Enabled(s, a)
    ensures After(terms, s, a).parent == s.parent
  {
  }

  /** The concurrent parent computes what its loop, as a method, computes. */
  lemma ParentIsItsLoop(terms: Terms, schedule: seq<Action>, s: State)
    requires Reachable(terms, true, schedule, s) && s.parent.Returned?
    ensures AfterPolls(Watching(None, None), s.polls) == s.parent
  {
    hide Assembled, Joined, AfterPolls, AllData;
    ReachableInv(terms, true, schedule, s);
    PipedStays(terms, true, schedule, s);
  }

  lemma StepKeepsPiped(terms: Terms, s: State, a: Action)
    requires Enabled(s, a)
    ensures After(terms, s, a).piped == s.piped
  {
    hide AfterRead, AfterReception, AfterWaiting, AfterClock, Killed, Look, Ask;
  }

  lemma {:induction false} PipedStays(terms: Terms, piped: bool, schedule: seq<Action>, s: State)
    requires Reachable(terms, piped, schedule, s)
    ensures s.piped == piped
    decreases |schedule|
  {
    hide After, Enabled;
    if schedule != [] {
      var n := |schedule| - 1;
      var before :| Reachable(terms, piped, schedule[..n], before) && Enabled(before, schedule[n]) &&
                    s == After(terms, before, schedule[n]);
      PipedStays(terms, piped, schedule[..n], before);
      StepKeepsPiped(terms, before, schedule[n]);
    }
  }

  /** The parent never waits for a reader that will not finish: it returns
      within the turns the deadline allows. */
  lemma ParentReturnsInTime(terms: Terms, piped: bool, schedule: seq<Action>, s: State)
    requires Reachable(terms, piped, schedule, s)
    ensures s.polls != [] ==> SLEEP * (|s.polls| - 1) < terms.timeout + SLEEP
    ensures s.parent.Watching? && s.place.AtReceive? && s.polls != [] ==> SLEEP * (|s.polls| - 1) < terms.timeout
  {
    hide Assembled, Joined, AfterPolls, AllData, ParentTrue, ReaderTrue, ChannelTrue, LoopTrue, ReturnTrue;
    ReachableInv(terms, piped, schedule, s);
  }

  /** The parent alone can always go on until it returns. */
  lemma ParentIsNeverStuck(s: State)
    requires s.parent.Watching?
    ensures exists a: Action ::
              (a.ParentReceives? || a.ParentWaits? || a.ParentChecksClock? || a.ParentSleeps?) && Enabled(s, a)
  {
    var a := match s.place
      case AtReceive => ParentReceives
      case AtWait => ParentWaits(false)
      case AtClock => ParentChecksClock
      case AtSleep => ParentSleeps(SLEEP);
    assert Enabled(s, a);
  }

  lemma OneMoreReachable(terms: Terms, schedule: seq<Action>, s: State, a: Action)
    requires Reachable(terms, true, schedule, s) && Enabled(s, a)
    ensures Reachable(terms, true, schedule + [a], After(terms, s, a))
  {
    hide After, Enabled;
    assert (schedule + [a])[..|schedule|] == schedule;
  }

  /** A child that says nothing and exits is captured as just that. */
  lemma QuietExitIsCaptured(terms: Terms, text: string, status: Option<int>)
    requires terms.decode([]) == Some(text)
    ensures exists schedule: seq<Action>, s: State ::
              && Reachable(terms, true, schedule, s) && s.parent.Returned?
              && s.parent.run.end.Exited? && Reports(status, s.parent.run.end.code) && s.parent.run.stderr == text
  {
    hide Reachable;
    var s0 := Begun(true);
    assert Reachable(terms, true, [], s0) by {
      NothingYetReached(terms);
    }
    OneMoreReachable(terms, [], s0, ReaderReads(Chunk([])));
    var s1 := After(terms, s0, ReaderReads(Chunk([])));
    OneMoreReachable(terms, [] + [ReaderReads(Chunk([]))], s1, ChildExits(status));
    var s2 := After(terms, s1, ChildExits(status));
    OneMoreReachable(terms, [] + [ReaderReads(Chunk([]))] + [ChildExits(status)], s2, ParentReceives);
    var s3 := After(terms, s2, ParentReceives);
    var three := [] + [ReaderReads(Chunk([]))] + [ChildExits(status)] + [ParentReceives];
    OneMoreReachable(terms, three, s3, ParentWaits(false));
    var s4 := After(terms, s3, ParentWaits(false));
    OneMoreReachable(terms, three + [ParentWaits(false)], s4, ParentChecksClock);
    var s5 := After(terms, s4, ParentChecksClock);
    assert s5.parent == Returned(CapturedRun(Exited(CodeOf(status)), text));
  }

  lemma NothingYetReached(terms: Terms)
    ensures Reachable(terms, true, [], Begun(true))
  {
  }
}
