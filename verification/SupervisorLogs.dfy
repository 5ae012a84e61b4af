/** The supervisor log pipeline (src/experiment_control/_manager/process_logs.py): reader threads
    queue child-process lines, the main thread drains them, groups tracebacks into blocks per
    source, and emits each block as one log message. */
module SupervisorLogs {
  import opened OrderedDict
  import BoundedQueue

  /** (source_kind, source_id, pid, stream). */
  datatype Key = Key(kind: string, id: string, pid: int, stream: string)
  datatype Item = Junk | Line(key: Key, message: string)
  datatype Block = Block(message: string, lastUpdate: real)
  datatype Emitted = Emitted(key: Key, message: string)
  datatype Logs = Logs(queue: BoundedQueue.Queue<Item>, pending: Dict<Key, Block>, emitted: seq<Emitted>, reported: nat)

  const INITIAL := Logs(BoundedQueue.Queue([], 0, 0), Empty(), [], 0)
  const MAX_AGE_S: real := 0.25

  // ---------------------------------------------------------------- line classification

  predicate IsSpace(c: char) { c == ' ' || '\t' <= c <= '\r' || '\U{1c}' <= c <= '\U{1f}' }

  function LStrip(s: string): string { if s != [] && IsSpace(s[0]) then LStrip(s[1..]) else s }

  function RStrip(s: string): string {
    if s != [] && IsSpace(s[|s| - 1]) then RStrip(s[..|s| - 1]) else s
  }

  function Strip(s: string): string { RStrip(LStrip(s)) }

  function Lower(s: string): string {
    seq(|s|, i requires 0 <= i < |s| => if 'A' <= s[i] <= 'Z' then s[i] + 'a' - 'A' else s[i])
  }

  predicate StartsBlock(m: string) {
    var l := Lower(Strip(m));
    "traceback (most recent call last):" <= l || "call stack:" <= l || "--- logging error ---" <= l
  }

  predicate IsWord(c: char) { 'a' <= c <= 'z' || 'A' <= c <= 'Z' || '0' <= c <= '9' || c == '_' }

  /** `[A-Za-z_][\w.]*Error`, `Exception` or `Traceback`. */
  predicate ExceptionName(p: string) {
    p == "Exception" || p == "Traceback" ||
    (|p| >= 6 && p[|p| - 5..] == "Error" && IsWord(p[0]) && !('0' <= p[0] <= '9') &&
     forall i :: 1 <= i < |p| - 5 ==> IsWord(p[i]) || p[i] == '.')
  }

  predicate ExceptionLine(m: string) {
    exists n :: 0 < n <= |m| && ExceptionName(m[..n]) && (n == |m| || !IsWord(m[n]))
  }

  const HANDLING := "during handling " + "of the above exception"
  const CAUSED := "the above exception " + ("was the direct cause " + "of the following exception")

  predicate ContinuesBlock(m: string) {
    var l := Lower(Strip(m));
    Strip(m) != "" &&
    (" " <= m || "\t" <= m ||
     "traceback (most recent call last):" <= l || "call stack:" <= l || "--- logging error ---" <= l ||
     "message:" <= l || "arguments:" <= l ||
     HANDLING <= l ||
     CAUSED <= l ||
     ExceptionLine(m))
  }

  /** A line that could open a block always continues an open one, so no block is ever replaced. */
  lemma StartAlsoContinues(m: string)
    requires StartsBlock(m)
    ensures ContinuesBlock(m) && m != ""
  {
    assert |Lower(Strip(m))| == |Strip(m)|;
  }

  /** Stripping on the right keeps a prefix that ends in a visible character. */
  lemma {:induction false} RStripKeeps(s: string, n: nat)
    requires 0 < n <= |s| && !IsSpace(s[n - 1])
    ensures n <= |RStrip(s)| && RStrip(s) <= s
  {
    if IsSpace(s[|s| - 1]) {
      RStripKeeps(s[..|s| - 1], n);
    } else {
    }
  }

  /** So does stripping a line that begins with a visible character. */
  lemma StripKeeps(s: string, n: nat)
    requires 0 < n <= |s| && !IsSpace(s[0]) && !IsSpace(s[n - 1])
    ensures n <= |Strip(s)| && Strip(s)[..n] == s[..n]
  {
    RStripKeeps(s, n);
  }

  lemma PrefixKept(header: string, rest: string)
    requires header != "" && !IsSpace(header[0]) && !IsSpace(header[|header| - 1])
    ensures Lower(header) <= Lower(Strip(header + rest))
  {
    StripKeeps(header + rest, |header|);
    hide Strip;
    var l, n := Strip(header + rest), |header|;
    assert forall i :: 0 <= i < n ==> l[i] == l[..n][i] == header[i];
  }

  lemma HeaderInLowerCase()
    ensures Lower("Traceback (most recent call last):") == "traceback (most recent call last):"
  {}

  /** The header of a Python traceback opens a block, whatever follows on its line. */
  lemma TracebackOpens(rest: string)
    ensures StartsBlock("Traceback (most recent call last):" + rest)
  {
    hide Strip, Lower;
    HeaderInLowerCase();
    PrefixKept("Traceback (most recent call last):", rest);
  }

  lemma MarkersInLowerCase()
    ensures Lower("Call stack:") == "call stack:" && Lower("--- Logging error ---") == "--- logging error ---"
    ensures Lower("Message:") == "message:" && Lower("Arguments:") == "arguments:"
  {}

  /** So do the two markers of the logging module. */
  lemma LoggingMarkersOpen(rest: string)
    ensures StartsBlock("Call stack:" + rest) && StartsBlock("--- Logging error ---" + rest)
  {
    hide Strip, Lower;
    MarkersInLowerCase();
    PrefixKept("Call stack:", rest);
    PrefixKept("--- Logging error ---", rest);
  }

  /** Its other markers only continue one. */
  lemma LoggingMarkersContinue(rest: string)
    ensures ContinuesBlock("Message:" + rest) && ContinuesBlock("Arguments:" + rest)
  {
    hide Strip, Lower;
    MarkersInLowerCase();
    PrefixKept("Message:", rest);
    PrefixKept("Arguments:", rest);
    LowerEmpty(Strip("Message:" + rest));
    LowerEmpty(Strip("Arguments:" + rest));
  }

  lemma LowerEmpty(s: string)
    ensures |Lower(s)| == |s|
  {}

  lemma LowerConcat(a: string, b: string)
    ensures Lower(a + b) == Lower(a) + Lower(b)
  {}

  lemma HandlingInLowerCase()
    ensures Lower("During handling ") == "during handling "
    ensures Lower("of the above exception") == "of the above exception"
  {}

  lemma CauseInLowerCase()
    ensures Lower("The above exception ") == "the above exception "
    ensures Lower("was the direct cause ") == "was the direct cause "
  {}

  lemma FollowingInLowerCase()
    ensures Lower("of the following exception") == "of the following exception"
  {}

  /** The lines between chained tracebacks continue a block. */
  lemma ChainedTracebackContinues(rest: string)
    ensures ContinuesBlock("During handling " + "of the above exception" + rest)
    ensures ContinuesBlock("The above exception " + ("was the direct cause " + "of the following exception") + rest)
  {
    hide Strip, Lower;
    HandlingInLowerCase();
    CauseInLowerCase();
    FollowingInLowerCase();
    var cause := "The above exception " + ("was the direct cause " + "of the following exception");
    LowerConcat("was the direct cause ", "of the following exception");
    LowerConcat("The above exception ", "was the direct cause " + "of the following exception");
    var handling := "During handling " + "of the above exception";
    LowerConcat("During handling ", "of the above exception");
    PrefixKept(handling, rest);
    PrefixKept(cause, rest);
    LowerEmpty(Strip(handling + rest));
    LowerEmpty(Strip(cause + rest));
  }

  /** So does a bare exception or traceback line. */
  lemma BareExceptionContinues(rest: string)
    requires rest == "" || !IsWord(rest[0])
    ensures ContinuesBlock("Exception" + rest) && ContinuesBlock("Traceback" + rest)
  {
    VisibleIsKept("Exception" + rest, 0);
    VisibleIsKept("Traceback" + rest, 0);
    assert ("Exception" + rest)[..9] == "Exception" && ("Traceback" + rest)[..9] == "Traceback";
    assert ExceptionName("Exception") && ExceptionName("Traceback");
    assert ExceptionLine("Exception" + rest) && ExceptionLine("Traceback" + rest);
  }

  lemma {:induction false} VisibleIsKept(s: string, i: nat)
    requires i < |s| && !IsSpace(s[i])
    ensures LStrip(s) != "" && !IsSpace(LStrip(s)[0]) && Strip(s) != ""
  {
    if IsSpace(s[0]) {
      VisibleIsKept(s[1..], i - 1);
    } else {
      StripKeeps(s, 1);
    }
  }

  /** An indented line with anything visible on it continues a block. */
  lemma IndentedContinues(m: string, i: nat)
    requires m != "" && (m[0] == ' ' || m[0] == '\t') && i < |m| && !IsSpace(m[i])
    ensures ContinuesBlock(m)
  {
    VisibleIsKept(m, i);
    assert m[..1] == " " || m[..1] == "\t";
  }

  /** So does the line that names the error. */
  lemma ErrorLineContinues(name: string, rest: string)
    requires name != "" && !('0' <= name[0] <= '9') && forall i :: 0 <= i < |name| ==> IsWord(name[i])
    requires rest == "" || !IsWord(rest[0])
    ensures ContinuesBlock(name + "Error" + rest)
  {
    var m, n := name + "Error" + rest, |name| + 5;
    VisibleIsKept(m, 0);
    assert m[..n] == name + "Error" && m[..n][n - 5..] == "Error";
    assert forall i :: 0 <= i < |name| ==> m[..n][i] == name[i];
    assert ExceptionName(m[..n]);
    assert ExceptionLine(m);
  }

  lemma NotAPrefix(p: string, l: string)
    requires p != "" && l != "" && p[0] != l[0]
    ensures !(p <= l)
  {}

  lemma FirstCharKept(m: string)
    requires m != "" && '0' <= m[0] <= '9'
    ensures Lower(Strip(m)) != "" && Lower(Strip(m))[0] == m[0]
  {
    StripKeeps(m, 1);
    assert Strip(m)[0] == Strip(m)[..1][0] == m[..1][0];
  }

  lemma NoExceptionName(m: string)
    requires m != "" && '0' <= m[0] <= '9'
    ensures !ExceptionLine(m)
  {
    forall n | 0 < n <= |m| ensures !ExceptionName(m[..n]) { assert m[..n][0] == m[0]; }
  }

  /** A line that begins with a digit is ordinary: it neither opens nor continues a block. */
  lemma OrdinaryLine(m: string)
    requires m != "" && '0' <= m[0] <= '9'
    ensures !StartsBlock(m) && !ContinuesBlock(m)
  {
    hide Strip, Lower, ExceptionLine;
    FirstCharKept(m);
    NoExceptionName(m);
    var l := Lower(Strip(m));
    NotAPrefix("traceback (most recent call last):", l);
    NotAPrefix("call stack:", l);
    NotAPrefix("--- logging error ---", l);
    NotAPrefix("message:", l);
    NotAPrefix("arguments:", l);
    assert HANDLING[0] == 'd';
    NotAPrefix(HANDLING, l);
    assert CAUSED[0] == 't';
    NotAPrefix(CAUSED, l);
    NotAPrefix(" ", m);
    NotAPrefix("\t", m);
  }

  // ---------------------------------------------------------------- steps

  function Emit(l: Logs, key: Key, message: string): Logs {
    if message == "" then l else l.(emitted := l.emitted + [Emitted(key, message)])
  }

  function Grow(b: Block, message: string, now: real): Block {
    Block(if b.message != "" then b.message + "\n" + message else message, now)
  }

  /** A line that no open block absorbs. */
  function Place(l: Logs, key: Key, message: string, now: real): Logs {
    if StartsBlock(message) then l.(pending := Put(l.pending, key, Block(message, now)))
    else Emit(l, key, message)
  }

  /** Close the block of a key: remove it and emit it. */
  function Close(l: Logs, key: Key): Logs {
    if key !in l.pending.vals then l
    else Emit(l.(pending := Pop(l.pending, key)), key, l.pending.vals[key].message)
  }

  function Accept(l: Logs, item: Item, now: real): Logs {
    if item.Junk? || item.message == "" then l
    else if item.key in l.pending.vals && ContinuesBlock(item.message) then
      l.(pending := Put(l.pending, item.key, Grow(l.pending.vals[item.key], item.message, now)))
    else Place(Close(l, item.key), item.key, item.message, now)
  }

  function Take(l: Logs, now: real): Logs {
    if l.queue.items == [] then l
    else Accept(l.(queue := BoundedQueue.GetNowait(l.queue)), l.queue.items[0], now)
  }

  function StaleKeys(pending: Dict<Key, Block>, keys: seq<Key>, now: real, force: bool): seq<Key> {
    if keys == [] then []
    else
      var k := keys[|keys| - 1];
      StaleKeys(pending, keys[..|keys| - 1], now, force) +
      (if force || (k in pending.vals && now - pending.vals[k].lastUpdate >= MAX_AGE_S) then [k] else [])
  }

  function CloseAll(l: Logs, keys: seq<Key>): Logs {
    if keys == [] then l else Close(CloseAll(l, keys[..|keys| - 1]), keys[|keys| - 1])
  }

  function Flush(l: Logs, now: real, force: bool): Logs {
    CloseAll(l, StaleKeys(l.pending, l.pending.keys, now, force))
  }

  datatype Event = Queue(item: Item) | Bump | Snapshot | TakeOne(now: real) | FlushStale(now: real, force: bool)

  function Step(l: Logs, e: Event, cap: nat): Logs {
    match e
    case Queue(item) => l.(queue := BoundedQueue.TryPut(l.queue, item, cap))
    case Bump => l.(queue := BoundedQueue.BumpDropped(l.queue))
    case Snapshot => l.(queue := BoundedQueue.ResetDropped(l.queue), reported := l.reported + l.queue.dropped)
    case TakeOne(now) => Take(l, now)
    case FlushStale(now, force) => Flush(l, now, force)
  }

  function Run(events: seq<Event>, cap: nat): Logs {
    if events == [] then INITIAL else Step(Run(events[..|events| - 1], cap), events[|events| - 1], cap)
  }

  // ---------------------------------------------------------------- text of one source

  /** Text of a message, as one or more newline-terminated lines; an empty message is no line. */
  function Lined(message: string): string { if message == "" then "" else message + "\n" }

  function ItemText(item: Item, key: Key): string {
    if item.Line? && item.key == key then Lined(item.message) else ""
  }

  function QueuedText(items: seq<Item>, key: Key): string {
    if items == [] then "" else ItemText(items[0], key) + QueuedText(items[1..], key)
  }

  function EmittedText(emitted: seq<Emitted>, key: Key): string {
    if emitted == [] then ""
    else
      var e := emitted[|emitted| - 1];
      EmittedText(emitted[..|emitted| - 1], key) + (if e.key == key then Lined(e.message) else "")
  }

  function PendingText(pending: Dict<Key, Block>, key: Key): string {
    if key in pending.vals then Lined(pending.vals[key].message) else ""
  }

  /** What has left the pipeline for a source, then its open block, then its queued lines. */
  function TextOf(l: Logs, key: Key): string {
    EmittedText(l.emitted, key) + PendingText(l.pending, key) + QueuedText(l.queue.items, key)
  }

  function OutText(l: Logs, key: Key): string {
    EmittedText(l.emitted, key) + PendingText(l.pending, key)
  }

  lemma {:induction false} QueuedTextSnoc(items: seq<Item>, item: Item, key: Key)
    ensures QueuedText(items + [item], key) == QueuedText(items, key) + ItemText(item, key)
  {
    hide ItemText;
    if items == [] {
      assert [item][1..] == [];
    } else {
      QueuedTextSnoc(items[1..], item, key);
      assert (items + [item])[1..] == items[1..] + [item];
    }
  }

  lemma EmitText(l: Logs, k: Key, message: string, key: Key)
    ensures EmittedText(Emit(l, k, message).emitted, key)
         == EmittedText(l.emitted, key) + (if k == key then Lined(message) else "")
  {
    var e := Emitted(k, message);
    assert (l.emitted + [e])[..|l.emitted|] == l.emitted;
  }

  lemma CloseText(l: Logs, k: Key, key: Key)
    ensures OutText(Close(l, k), key) == OutText(l, key)
    ensures Close(l, k).queue == l.queue && Close(l, k).reported == l.reported
    ensures Close(l, k).pending.vals == l.pending.vals - {k}
  {
    if k in l.pending.vals {
      EmitText(l.(pending := Pop(l.pending, k)), k, l.pending.vals[k].message, key);
    }
  }

  lemma {:induction false} CloseAllText(l: Logs, keys: seq<Key>, key: Key)
    ensures OutText(CloseAll(l, keys), key) == OutText(l, key)
    ensures CloseAll(l, keys).queue == l.queue && CloseAll(l, keys).reported == l.reported
  {
    if keys == [] {
    } else {
      CloseAllText(l, keys[..|keys| - 1], key);
      CloseText(CloseAll(l, keys[..|keys| - 1]), keys[|keys| - 1], key);
    }
  }

  lemma PlaceText(l: Logs, k: Key, message: string, now: real, key: Key)
    requires k !in l.pending.vals && message != ""
    ensures OutText(Place(l, k, message, now), key) == OutText(l, key) + (if k == key then Lined(message) else "")
    ensures Place(l, k, message, now).queue == l.queue
  {
    hide EmittedText, StartsBlock;
    EmitText(l, k, message, key);
  }

  lemma AcceptText(l: Logs, item: Item, now: real, key: Key)
    ensures OutText(Accept(l, item, now), key) == OutText(l, key) + ItemText(item, key)
    ensures Accept(l, item, now).queue == l.queue && Accept(l, item, now).reported == l.reported
  {
    hide EmittedText;
    if item.Line? && item.message != "" {
      if item.key in l.pending.vals && ContinuesBlock(item.message) {
        var b := l.pending.vals[item.key];
        assert b.message != "" ==> Lined(Grow(b, item.message, now).message) == Lined(b.message) + Lined(item.message);
      } else {
        CloseText(l, item.key, key);
        PlaceText(Close(l, item.key), item.key, item.message, now, key);
      }
    }
  }

  /** No step other than an accepted put changes a source's text. */
  lemma StepText(l: Logs, e: Event, cap: nat, key: Key)
    ensures TextOf(Step(l, e, cap), key)
         == TextOf(l, key) + (if e.Queue? && |l.queue.items| < cap then ItemText(e.item, key) else "")
  {
    hide TextOf, OutText, QueuedText, ItemText, Accept, StaleKeys, CloseAll;
    TextSplits(l, key);
    TextSplits(Step(l, e, cap), key);
    match e {
      case Queue(item) =>
        QueuedTextSnoc(l.queue.items, item, key);
        SameOutText(l, Step(l, e, cap), key);
      case Bump => SameOutText(l, Step(l, e, cap), key);
      case Snapshot => SameOutText(l, Step(l, e, cap), key);
      case TakeOne(now) =>
        if l.queue.items != [] {
          var l' := l.(queue := BoundedQueue.GetNowait(l.queue));
          AcceptText(l', l.queue.items[0], now, key);
          SameOutText(l, l', key);
          QueuedTextHead(l.queue.items, key);
        }
      case FlushStale(now, force) =>
        CloseAllText(l, StaleKeys(l.pending, l.pending.keys, now, force), key);
    }
  }

  lemma QueuedTextHead(items: seq<Item>, key: Key)
    requires items != []
    ensures QueuedText(items, key) == ItemText(items[0], key) + QueuedText(items[1..], key)
  {}

  lemma TextSplits(l: Logs, key: Key)
    ensures TextOf(l, key) == OutText(l, key) + QueuedText(l.queue.items, key)
  {}

  lemma SameOutText(a: Logs, b: Logs, key: Key)
    requires a.emitted == b.emitted && a.pending == b.pending
    ensures OutText(a, key) == OutText(b, key)
  {}

  /** The lines a source got into the queue, in order. */
  function Accepted(events: seq<Event>, cap: nat, key: Key): seq<string> {
    if events == [] then []
    else
      var n := |events| - 1;
      var e := events[n];
      Accepted(events[..n], cap, key) +
      (if Enters(e, |Run(events[..n], cap).queue.items| < cap, key) then [e.item.message] else [])
  }

  function Joined(lines: seq<string>): string {
    if lines == [] then "" else Joined(lines[..|lines| - 1]) + lines[|lines| - 1] + "\n"
  }

  /** For every interleaving of reader puts with main-thread steps and every source: emitted
      blocks, then the open block, then the queue spell exactly the accepted lines in order.
      Grouping and stale flushes lose, repeat and reorder nothing. */
  lemma {:induction false} NothingLostOrReordered(events: seq<Event>, cap: nat, key: Key)
    ensures TextOf(Run(events, cap), key) == Joined(Accepted(events, cap, key))
  {
    if events == [] {
      assert QueuedText([], key) == "";
    } else {
      var n := |events| - 1;
      NothingLostOrReordered(events[..n], cap, key);
      StepText(Run(events[..n], cap), events[n], cap, key);
      JoinedSnoc(Accepted(events[..n], cap, key), events[n], |Run(events[..n], cap).queue.items| < cap, key);
    }
  }

  predicate Enters(e: Event, room: bool, key: Key) {
    e.Queue? && room && e.item.Line? && e.item.key == key && e.item.message != ""
  }

  lemma JoinedSnoc(lines: seq<string>, e: Event, room: bool, key: Key)
    ensures Joined(lines + (if Enters(e, room, key) then [e.item.message] else []))
         == Joined(lines) + (if e.Queue? && room then ItemText(e.item, key) else "")
  {
    if e.Queue? && e.item.Line? {
      assert (lines + [e.item.message])[..|lines|] == lines;
    }
    assert lines + [] == lines;
  }

  /** The queue operation performed by a step; flushing performs none. */
  function QueueEvent(e: Event): BoundedQueue.Event<Item>
    requires !e.FlushStale?
  {
    match e
    case Queue(item) => BoundedQueue.Put(item)
    case Bump => BoundedQueue.Bump
    case Snapshot => BoundedQueue.Snapshot
    case TakeOne(_) => BoundedQueue.Get
  }

  function QueueEvents(events: seq<Event>): seq<BoundedQueue.Event<Item>> {
    if events == [] then []
    else
      var e := events[|events| - 1];
      QueueEvents(events[..|events| - 1]) + (if e.FlushStale? then [] else [QueueEvent(e)])
  }

  ghost predicate SameQueue(l: Logs, o: BoundedQueue.Observed<Item>) {
    l.queue == o.q && l.reported == o.reported
  }

  lemma StepMatchesQueue(l: Logs, o: BoundedQueue.Observed<Item>, e: Event, cap: nat)
    requires SameQueue(l, o)
    ensures SameQueue(Step(l, e, cap), if e.FlushStale? then o else BoundedQueue.Step(o, QueueEvent(e), cap))
  {
    hide Accept, CloseAll, StaleKeys;
    var anyKey := Key("", "", 0, "");
    if e.FlushStale? {
      CloseAllText(l, StaleKeys(l.pending, l.pending.keys, e.now, e.force), anyKey);
    } else if e.TakeOne? && l.queue.items != [] {
      AcceptText(l.(queue := BoundedQueue.GetNowait(l.queue)), l.queue.items[0], e.now, anyKey);
    }
  }

  lemma {:induction false} RunMatchesQueue(events: seq<Event>, cap: nat)
    ensures SameQueue(Run(events, cap), BoundedQueue.Run(QueueEvents(events), cap))
  {
    if events == [] {
    } else {
      hide Step, SameQueue, BoundedQueue.Step;
      var before, e := events[..|events| - 1], events[|events| - 1];
      RunMatchesQueue(before, cap);
      var qs := QueueEvents(before);
      StepMatchesQueue(Run(before, cap), BoundedQueue.Run(qs, cap), e, cap);
      if !e.FlushStale? {
        assert (qs + [QueueEvent(e)])[..|qs|] == qs;
      } else {
        assert QueueEvents(events) == qs;
      }
    }
  }

  /** The pipeline's queue and drop reports are a run of the bounded queue, so every line ever
      produced is consumed, queued, reported as dropped, or counted for the next report. */
  lemma LinesAreAccountedFor(events: seq<Event>, cap: nat)
    ensures var o := BoundedQueue.Run(QueueEvents(events), cap);
            Run(events, cap).queue == o.q && Run(events, cap).reported == o.reported &&
            o.produced == |o.consumed| + |o.q.items| + o.reported + o.q.dropped + o.q.failing
  {
    BoundedQueue.EveryItemIsAccountedFor(QueueEvents(events), cap);
    RunMatchesQueue(events, cap);
  }

  // ---------------------------------------------------------------- reading lines back

  function FirstNewline(s: string): (i: nat)
    ensures i <= |s| && (i < |s| ==> s[i] == '\n') && forall j :: 0 <= j < i ==> s[j] != '\n'
  {
    if s == "" || s[0] == '\n' then 0 else 1 + FirstNewline(s[1..])
  }

  function SplitLines(s: string): seq<string>
    decreases |s|
  {
    var i := FirstNewline(s);
    if i == |s| then [] else [s[..i]] + SplitLines(s[i + 1..])
  }

  function JoinedFront(lines: seq<string>): string {
    if lines == [] then "" else lines[0] + "\n" + JoinedFront(lines[1..])
  }

  lemma {:induction false} JoinedBothWays(lines: seq<string>)
    ensures Joined(lines) == JoinedFront(lines)
  {
    if lines == [] {
    } else {
      var n := |lines| - 1;
      JoinedBothWays(lines[..n]);
      FrontSnoc(lines[..n], lines[n]);
      assert lines == lines[..n] + [lines[n]];
    }
  }

  lemma {:induction false} FrontSnoc(lines: seq<string>, x: string)
    ensures JoinedFront(lines + [x]) == JoinedFront(lines) + x + "\n"
  {
    if lines == [] {
      assert [x][1..] == [] && JoinedFront([x]) == x + "\n" + "";
    } else {
      FrontSnoc(lines[1..], x);
      assert (lines + [x])[1..] == lines[1..] + [x];
    }
  }

  lemma {:induction false} SplitUndoesJoin(lines: seq<string>)
    requires forall i :: 0 <= i < |lines| ==> '\n' !in lines[i]
    ensures SplitLines(JoinedFront(lines)) == lines
  {
    if lines == [] {
    } else {
      SplitUndoesJoin(lines[1..]);
      SplitFirst(lines[0], JoinedFront(lines[1..]));
    }
  }

  lemma SplitFirst(x: string, rest: string)
    requires '\n' !in x
    ensures SplitLines(x + "\n" + rest) == [x] + SplitLines(rest)
  {
    var s := x + "\n" + rest;
    assert s[|x|] == '\n' && forall j :: 0 <= j < |x| ==> s[j] == x[j] && x[j] in x;
    assert FirstNewline(s) == |x|;
    assert s[..|x|] == x && s[|x| + 1..] == rest;
  }

  /** Reader threads queue newline-free lines; then the very lines can be read back. */
  lemma AcceptedLinesReadBack(events: seq<Event>, cap: nat, key: Key)
    requires forall i :: 0 <= i < |Accepted(events, cap, key)| ==> '\n' !in Accepted(events, cap, key)[i]
    ensures SplitLines(TextOf(Run(events, cap), key)) == Accepted(events, cap, key)
  {
    NothingLostOrReordered(events, cap, key);
    JoinedBothWays(Accepted(events, cap, key));
    SplitUndoesJoin(Accepted(events, cap, key));
  }

  // ---------------------------------------------------------------- grouping

  /** The message made of several lines. */
  function Glue(lines: seq<string>): string {
    if lines == [] then "" else if |lines| == 1 then lines[0]
    else Glue(lines[..|lines| - 1]) + "\n" + lines[|lines| - 1]
  }

  /** One line that opens no block, or an opening line followed by continuation lines. */
  ghost predicate IsGroup(lines: seq<string>) {
    lines != [] && (forall i :: 0 <= i < |lines| ==> lines[i] != "") &&
    (StartsBlock(lines[0]) || |lines| == 1) && forall i :: 1 <= i < |lines| ==> ContinuesBlock(lines[i])
  }

  function Concat(groups: seq<seq<string>>): seq<string> {
    if groups == [] then [] else Concat(groups[..|groups| - 1]) + groups[|groups| - 1]
  }

  /** The messages emitted for a source, then its open block. */
  function EmittedOf(emitted: seq<Emitted>, key: Key): seq<string> {
    if emitted == [] then []
    else
      var e := emitted[|emitted| - 1];
      EmittedOf(emitted[..|emitted| - 1], key) + (if e.key == key then [e.message] else [])
  }

  function Messages(l: Logs, key: Key): seq<string> {
    EmittedOf(l.emitted, key) + (if key in l.pending.vals then [l.pending.vals[key].message] else [])
  }

  /** The lines of a source that are still queued. */
  function QueuedLines(items: seq<Item>, key: Key): seq<string> {
    if items == [] then [] else OwnLine(items[0], key) + QueuedLines(items[1..], key)
  }

  function OwnLine(item: Item, key: Key): seq<string> {
    if item.Line? && item.key == key && item.message != "" then [item.message] else []
  }

  /** Each message glues one group together, and an open block has its opening line. */
  ghost predicate Grouped(l: Logs, key: Key, groups: seq<seq<string>>) {
    Makes(groups, Messages(l, key)) &&
    (key in l.pending.vals ==> groups != [] && StartsBlock(groups[|groups| - 1][0]))
  }

  ghost predicate Makes(groups: seq<seq<string>>, messages: seq<string>) {
    |groups| == |messages| &&
    forall i :: 0 <= i < |groups| ==> IsGroup(groups[i]) && Glue(groups[i]) == messages[i]
  }

  ghost predicate NonEmptyBlocks(l: Logs) {
    forall k :: k in l.pending.vals ==> l.pending.vals[k].message != ""
  }

  lemma EmitMessages(l: Logs, k: Key, message: string, key: Key)
    requires message != ""
    ensures EmittedOf(Emit(l, k, message).emitted, key)
         == EmittedOf(l.emitted, key) + (if k == key then [message] else [])
  {
    var e := Emitted(k, message);
    assert (l.emitted + [e])[..|l.emitted|] == l.emitted;
  }

  /** Closing a block only moves its message from the open ones to the emitted ones. */
  lemma CloseMessages(l: Logs, k: Key, key: Key)
    requires NonEmptyBlocks(l)
    ensures Messages(Close(l, k), key) == Messages(l, key) && NonEmptyBlocks(Close(l, k))
    ensures Close(l, k).queue == l.queue && Close(l, k).pending.vals == l.pending.vals - {k}
  {
    hide EmittedOf;
    if k in l.pending.vals {
      EmitMessages(l.(pending := Pop(l.pending, k)), k, l.pending.vals[k].message, key);
    } else {
      assert l.pending.vals - {k} == l.pending.vals;
    }
  }

  lemma {:induction false} CloseAllMessages(l: Logs, keys: seq<Key>, key: Key)
    requires NonEmptyBlocks(l)
    ensures Messages(CloseAll(l, keys), key) == Messages(l, key) && NonEmptyBlocks(CloseAll(l, keys))
    ensures CloseAll(l, keys).queue == l.queue
    ensures key in CloseAll(l, keys).pending.vals ==> key in l.pending.vals
  {
    hide Close, Messages, NonEmptyBlocks;
    if keys == [] {
    } else {
      CloseAllMessages(l, keys[..|keys| - 1], key);
      CloseMessages(CloseAll(l, keys[..|keys| - 1]), keys[|keys| - 1], key);
    }
  }

  /** What a taken line does to the messages of a source: it extends the open block or starts a
      message of its own, which stays open exactly if the line opens a block. */
  lemma AcceptMessages(l: Logs, item: Item, now: real, key: Key)
    requires NonEmptyBlocks(l)
    ensures var l', m := Accept(l, item, now), Messages(l, key);
            NonEmptyBlocks(l') && l'.queue == l.queue &&
            if OwnLine(item, key) == [] then
              Messages(l', key) == m && (key in l'.pending.vals ==> key in l.pending.vals)
            else if key in l.pending.vals && ContinuesBlock(item.message) then
              m != [] && Messages(l', key) == m[..|m| - 1] + [m[|m| - 1] + "\n" + item.message] && m[|m| - 1] != ""
            else
              Messages(l', key) == m + [item.message] && (key in l'.pending.vals ==> StartsBlock(item.message))
  {
    hide EmittedOf, StartsBlock, ContinuesBlock, Close;
    if item.Line? && item.message != "" {
      if item.key in l.pending.vals && ContinuesBlock(item.message) {
      } else {
        CloseMessages(l, item.key, key);
        EmitMessages(Close(l, item.key), item.key, item.message, key);
      }
    }
  }

  lemma GlueSnoc(lines: seq<string>, m: string)
    requires lines != []
    ensures Glue(lines + [m]) == Glue(lines) + "\n" + m
  {
    assert (lines + [m])[..|lines|] == lines;
  }

  lemma ConcatSnoc(groups: seq<seq<string>>, g: seq<string>)
    ensures Concat(groups + [g]) == Concat(groups) + g
  {
    assert (groups + [g])[..|groups|] == groups;
  }

  /** How taking an item regroups a source's lines. */
  function NextGroups(l: Logs, item: Item, key: Key, groups: seq<seq<string>>): seq<seq<string>> {
    if OwnLine(item, key) == [] then groups
    else if key in l.pending.vals && ContinuesBlock(item.message) && groups != [] then
      groups[..|groups| - 1] + [groups[|groups| - 1] + [item.message]]
    else groups + [[item.message]]
  }

  lemma ExtendMakes(before: seq<seq<string>>, last: seq<string>, messages: seq<string>, m: string)
    requires Makes(before + [last], messages) && last != [] && StartsBlock(last[0]) && ContinuesBlock(m) && m != ""
    ensures Makes(before + [last + [m]], messages[..|before|] + [messages[|before|] + "\n" + m])
  {
    hide Glue, StartsBlock, ContinuesBlock;
    assert (before + [last])[|before|] == last;
    GlueSnoc(last, m);
    assert forall i :: 0 <= i < |before| ==> (before + [last])[i] == before[i];
    assert IsGroup(last + [m]);
    hide IsGroup;
  }

  lemma AppendMakes(groups: seq<seq<string>>, messages: seq<string>, m: string)
    requires Makes(groups, messages) && m != ""
    ensures Makes(groups + [[m]], messages + [m])
  {
    SingleGroup(m);
    hide Glue, IsGroup;
  }

  /** A continuation line joins the last group. */
  lemma ExtendGrouped(l: Logs, l': Logs, m: string, key: Key, groups: seq<seq<string>>)
    requires Grouped(l, key, groups) && key in l.pending.vals && ContinuesBlock(m) && m != ""
    requires var was := Messages(l, key);
             was != [] && Messages(l', key) == was[..|was| - 1] + [was[|was| - 1] + "\n" + m]
    ensures var next := groups[..|groups| - 1] + [groups[|groups| - 1] + [m]];
            Grouped(l', key, next) && Concat(next) == Concat(groups) + [m]
  {
    hide Messages, Concat, StartsBlock, ContinuesBlock;
    MakesCounts(groups, Messages(l, key));
    hide Makes;
    var before, last := groups[..|groups| - 1], groups[|groups| - 1];
    assert groups == before + [last];
    ExtendMakes(before, last, Messages(l, key), m);
    ConcatSnoc(before, last);
    ConcatSnoc(before, last + [m]);
    assert (last + [m])[0] == last[0];
  }

  /** Any other line makes a group of its own. */
  lemma AppendGrouped(l: Logs, l': Logs, m: string, key: Key, groups: seq<seq<string>>)
    requires Grouped(l, key, groups) && m != "" && Messages(l', key) == Messages(l, key) + [m]
    requires key in l'.pending.vals ==> StartsBlock(m)
    ensures Grouped(l', key, groups + [[m]]) && Concat(groups + [[m]]) == Concat(groups) + [m]
  {
    hide Messages, Concat, StartsBlock, Makes;
    AppendMakes(groups, Messages(l, key), m);
    ConcatSnoc(groups, [m]);
  }

  lemma AcceptGrouped(l: Logs, item: Item, now: real, key: Key, groups: seq<seq<string>>)
    requires NonEmptyBlocks(l) && Grouped(l, key, groups)
    ensures Grouped(Accept(l, item, now), key, NextGroups(l, item, key, groups))
    ensures Concat(NextGroups(l, item, key, groups)) == Concat(groups) + OwnLine(item, key)
  {
    AcceptMessages(l, item, now, key);
    hide Accept, Messages, Makes, Concat, StartsBlock, ContinuesBlock;
    if OwnLine(item, key) == [] {
      assert Concat(groups) + [] == Concat(groups);
    } else if key in l.pending.vals && ContinuesBlock(item.message) {
      ExtendGrouped(l, Accept(l, item, now), item.message, key, groups);
      hide Grouped;
    } else {
      AppendGrouped(l, Accept(l, item, now), item.message, key, groups);
      hide Grouped;
    }
  }

  lemma MakesCounts(groups: seq<seq<string>>, messages: seq<string>)
    requires Makes(groups, messages)
    ensures |groups| == |messages| && (groups != [] ==> groups[|groups| - 1] != [])
  {}

  lemma SingleGroup(m: string)
    requires m != ""
    ensures IsGroup([m]) && Glue([m]) == m
  {}

  lemma QueuedLinesSnoc(items: seq<Item>, item: Item, key: Key)
    ensures QueuedLines(items + [item], key) == QueuedLines(items, key) + OwnLine(item, key)
  {
    hide OwnLine;
    if items == [] {
      assert [item][1..] == [];
    } else {
      QueuedLinesSnoc(items[1..], item, key);
      assert (items + [item])[1..] == items[1..] + [item];
    }
  }

  /** What the history of a source says: the groups of its lines taken so far, when the last of them
      was taken, and whether a flush since then closes a block that age. */
  datatype Past = Past(groups: seq<seq<string>>, since: real, flushed: bool)

  /** The last line belongs to a block, and no flush has closed it since that line was taken. */
  predicate OpenBlock(p: Past) {
    var n := |p.groups| - 1;
    p.groups != [] && p.groups[n] != [] && StartsBlock(p.groups[n][0]) && !p.flushed
  }

  /** A line joins the group of the line before it if and only if that group is an open block and
      the line continues it; otherwise it begins a group. */
  function TakePast(p: Past, item: Item, now: real, key: Key): Past {
    if OwnLine(item, key) == [] then p
    else if OpenBlock(p) && ContinuesBlock(item.message) then
      Past(p.groups[..|p.groups| - 1] + [p.groups[|p.groups| - 1] + [item.message]], now, false)
    else Past(p.groups + [[item.message]], now, false)
  }

  function FlushPast(p: Past, now: real, force: bool): Past {
    p.(flushed := p.flushed || force || now - p.since >= MAX_AGE_S)
  }

  function PastOf(events: seq<Event>, cap: nat, key: Key): Past {
    if events == [] then Past([], 0.0, false)
    else
      var n := |events| - 1;
      var items, p := Run(events[..n], cap).queue.items, PastOf(events[..n], cap, key);
      match events[n]
      case TakeOne(now) => if items != [] then TakePast(p, items[0], now, key) else p
      case FlushStale(now, force) => FlushPast(p, now, force)
      case _ => p
  }

  /** The pipeline holds an open block of a source exactly when the history says so. */
  ghost predicate Knows(l: Logs, key: Key, p: Past) {
    Valid(l.pending) && (key in l.pending.vals <==> OpenBlock(p)) &&
    (key in l.pending.vals ==> l.pending.vals[key].lastUpdate == p.since)
  }

  lemma PlaceKnows(l: Logs, k: Key, message: string, now: real)
    requires Valid(l.pending)
    ensures var l' := Place(l, k, message, now);
            Valid(l'.pending) &&
            l'.pending.vals == if StartsBlock(message) then l.pending.vals[k := Block(message, now)] else l.pending.vals
  {
    hide StartsBlock;
    PutValid(l.pending, k, Block(message, now));
  }

  lemma CloseKnows(l: Logs, k: Key)
    requires Valid(l.pending)
    ensures Valid(Close(l, k).pending) && Close(l, k).pending.vals == l.pending.vals - {k}
  {
    PopValid(l.pending, k);
    assert k !in l.pending.vals ==> l.pending.vals - {k} == l.pending.vals;
  }

  /** The open blocks after an item was taken. */
  lemma AcceptPending(l: Logs, item: Item, now: real, key: Key)
    requires Valid(l.pending)
    ensures var l' := Accept(l, item, now);
            Valid(l'.pending) &&
            if OwnLine(item, key) == [] then
              (key in l'.pending.vals <==> key in l.pending.vals) &&
              (key in l.pending.vals ==> l'.pending.vals[key] == l.pending.vals[key])
            else
              (key in l'.pending.vals <==>
                 (key in l.pending.vals && ContinuesBlock(item.message)) || StartsBlock(item.message)) &&
              (key in l'.pending.vals ==> l'.pending.vals[key].lastUpdate == now)
  {
    hide StartsBlock, ContinuesBlock, Place, Close, Valid;
    if item.Line? && item.message != "" {
      if StartsBlock(item.message) { StartAlsoContinues(item.message); }
      if item.key in l.pending.vals && ContinuesBlock(item.message) {
        PutValid(l.pending, item.key, Grow(l.pending.vals[item.key], item.message, now));
      } else {
        CloseKnows(l, item.key);
        PlaceKnows(Close(l, item.key), item.key, item.message, now);
      }
    }
  }

  lemma TakeKnows(l: Logs, item: Item, now: real, key: Key, p: Past)
    requires Knows(l, key, p)
    ensures Knows(Accept(l, item, now), key, TakePast(p, item, now, key))
    ensures TakePast(p, item, now, key).groups == NextGroups(l, item, key, p.groups)
  {
    AcceptPending(l, item, now, key);
    hide Accept, StartsBlock, ContinuesBlock, Valid;
    var p' := TakePast(p, item, now, key);
    if OwnLine(item, key) == [] {
    } else if OpenBlock(p) && ContinuesBlock(item.message) {
      var last := p.groups[|p.groups| - 1];
      assert p'.groups[|p'.groups| - 1] == last + [item.message] && (last + [item.message])[0] == last[0];
    } else {
      assert p'.groups[|p'.groups| - 1] == [item.message];
    }
  }

  lemma {:induction false} StaleKeysAre(pending: Dict<Key, Block>, keys: seq<Key>, now: real, force: bool, key: Key)
    ensures key in StaleKeys(pending, keys, now, force) <==>
      key in keys && (force || (key in pending.vals && now - pending.vals[key].lastUpdate >= MAX_AGE_S))
  {
    if keys == [] {
    } else {
      StaleKeysAre(pending, keys[..|keys| - 1], now, force, key);
      assert keys == keys[..|keys| - 1] + [keys[|keys| - 1]];
    }
  }

  lemma {:induction false} CloseAllKnows(l: Logs, keys: seq<Key>, key: Key)
    requires Valid(l.pending)
    ensures var l' := CloseAll(l, keys);
            Valid(l'.pending) && (key in l'.pending.vals <==> key in l.pending.vals && key !in keys) &&
            (key in l'.pending.vals ==> l'.pending.vals[key] == l.pending.vals[key])
  {
    if keys == [] {
    } else {
      hide Close, Valid;
      var n := |keys| - 1;
      CloseAllKnows(l, keys[..n], key);
      CloseKnows(CloseAll(l, keys[..n]), keys[n]);
      assert keys == keys[..n] + [keys[n]];
    }
  }

  lemma FlushKnows(l: Logs, now: real, force: bool, key: Key, p: Past)
    requires Knows(l, key, p)
    ensures Knows(Flush(l, now, force), key, FlushPast(p, now, force))
  {
    hide CloseAll, StaleKeys, StartsBlock;
    StaleKeysAre(l.pending, l.pending.keys, now, force, key);
    CloseAllKnows(l, StaleKeys(l.pending, l.pending.keys, now, force), key);
    hide Distinct;
  }

  /** `groups` partitions these lines, except the queued ones, into the messages of a source. */
  ghost predicate Partitions(l: Logs, key: Key, groups: seq<seq<string>>, lines: seq<string>) {
    NonEmptyBlocks(l) && Grouped(l, key, groups) && Concat(groups) + QueuedLines(l.queue.items, key) == lines
  }

  lemma TakePartitions(l: Logs, now: real, key: Key, groups: seq<seq<string>>, lines: seq<string>)
    requires Partitions(l, key, groups, lines) && l.queue.items != []
    ensures Partitions(Take(l, now), key, NextGroups(l, l.queue.items[0], key, groups), lines)
  {
    hide Accept, NextGroups, Concat, OwnLine, Makes;
    var item, l' := l.queue.items[0], l.(queue := BoundedQueue.GetNowait(l.queue));
    assert Messages(l', key) == Messages(l, key);
    AcceptMessages(l', item, now, key);
    AcceptGrouped(l', item, now, key, groups);
    hide Messages, Grouped;
    SameNextGroups(l, l', item, key, groups);
    var rest := QueuedLines(l.queue.items[1..], key);
    assert (Concat(groups) + OwnLine(item, key)) + rest == Concat(groups) + (OwnLine(item, key) + rest);
  }

  lemma SameNextGroups(l: Logs, l': Logs, item: Item, key: Key, groups: seq<seq<string>>)
    requires l'.pending == l.pending
    ensures NextGroups(l', item, key, groups) == NextGroups(l, item, key, groups)
  {}

  lemma PutPartitions(l: Logs, item: Item, cap: nat, key: Key, groups: seq<seq<string>>, lines: seq<string>)
    requires Partitions(l, key, groups, lines)
    ensures Partitions(Step(l, Queue(item), cap), key, groups,
                       lines + if |l.queue.items| < cap then OwnLine(item, key) else [])
  {
    hide Concat, OwnLine;
    var l', items := Step(l, Queue(item), cap), l.queue.items;
    assert Messages(l', key) == Messages(l, key);
    if |items| < cap {
      QueuedLinesSnoc(items, item, key);
      var queued := QueuedLines(items, key);
      assert Concat(groups) + (queued + OwnLine(item, key)) == (Concat(groups) + queued) + OwnLine(item, key);
    } else {
      assert lines + [] == lines;
    }
  }

  lemma FlushPartitions(l: Logs, now: real, force: bool, key: Key, groups: seq<seq<string>>, lines: seq<string>)
    requires Partitions(l, key, groups, lines)
    ensures Partitions(Flush(l, now, force), key, groups, lines)
  {
    hide CloseAll, StaleKeys, Messages, Concat, QueuedLines, Makes;
    CloseAllMessages(l, StaleKeys(l.pending, l.pending.keys, now, force), key);
  }

  lemma SameMessagesPartition(l: Logs, l': Logs, key: Key, groups: seq<seq<string>>, lines: seq<string>)
    requires Partitions(l, key, groups, lines)
    requires l'.pending == l.pending && l'.emitted == l.emitted && l'.queue.items == l.queue.items
    ensures Partitions(l', key, groups, lines)
  {
    assert Messages(l', key) == Messages(l, key);
  }

  lemma {:induction false} RunPartitions(events: seq<Event>, cap: nat, key: Key)
    ensures Partitions(Run(events, cap), key, PastOf(events, cap, key).groups, Accepted(events, cap, key))
    ensures Knows(Run(events, cap), key, PastOf(events, cap, key))
  {
    hide Partitions, NextGroups, TakePast, Take, Flush, Knows;
    if events == [] {
      PartitionsInitially(key);
    } else {
      var n := |events| - 1;
      var l, e, p := Run(events[..n], cap), events[n], PastOf(events[..n], cap, key);
      var lines := Accepted(events[..n], cap, key);
      RunPartitions(events[..n], cap, key);
      match e {
        case Queue(item) =>
          PutPartitions(l, item, cap, key, p.groups, lines);
          SamePendingKnows(l, Step(l, e, cap), key, p);
        case Bump =>
          SameMessagesPartition(l, Step(l, e, cap), key, p.groups, lines);
          SamePendingKnows(l, Step(l, e, cap), key, p);
        case Snapshot =>
          SameMessagesPartition(l, Step(l, e, cap), key, p.groups, lines);
          SamePendingKnows(l, Step(l, e, cap), key, p);
        case TakeOne(now) =>
          if l.queue.items != [] {
            TakePartitions(l, now, key, p.groups, lines);
            StepTakeKnows(l, now, key, p);
          } else {
            TakeNothing(l, now);
          }
        case FlushStale(now, force) =>
          FlushPartitions(l, now, force, key, p.groups, lines);
          FlushKnows(l, now, force, key, p);
      }
      assert lines + [] == lines;
    }
  }

  lemma SamePendingKnows(l: Logs, l': Logs, key: Key, p: Past)
    requires Knows(l, key, p) && l'.pending == l.pending
    ensures Knows(l', key, p)
  {}

  lemma StepTakeKnows(l: Logs, now: real, key: Key, p: Past)
    requires Knows(l, key, p) && l.queue.items != []
    ensures Knows(Take(l, now), key, TakePast(p, l.queue.items[0], now, key))
    ensures TakePast(p, l.queue.items[0], now, key).groups == NextGroups(l, l.queue.items[0], key, p.groups)
  {
    hide Accept, NextGroups, TakePast;
    var l', item := l.(queue := BoundedQueue.GetNowait(l.queue)), l.queue.items[0];
    TakeKnows(l', item, now, key, p);
    SameNextGroups(l, l', item, key, p.groups);
  }

  lemma PartitionsInitially(key: Key)
    ensures Partitions(INITIAL, key, [], []) && Knows(INITIAL, key, Past([], 0.0, false))
  {}

  lemma TakeNothing(l: Logs, now: real)
    requires l.queue.items == []
    ensures Take(l, now) == l
  {}

  /** For every run and every source, the accepted lines that have left the queue are partitioned
      into its messages exactly as the history says: two consecutive lines are in the same message
      if and only if the second continues, the first is in a block that an opening line began, and
      no flush closed that block between their takes. */
  lemma RunIsWellGrouped(events: seq<Event>, cap: nat, key: Key)
    ensures var l, groups := Run(events, cap), PastOf(events, cap, key).groups;
            Grouped(l, key, groups) && Concat(groups) + QueuedLines(l.queue.items, key) == Accepted(events, cap, key)
    ensures key in Run(events, cap).pending.vals <==> OpenBlock(PastOf(events, cap, key))
  {
    RunPartitions(events, cap, key);
  }

  lemma {:induction false} GroupTerminated(lines: seq<string>)
    requires lines != []
    ensures Glue(lines) + "\n" == Joined(lines)
  {
    if |lines| <= 1 {
    } else {
      GroupTerminated(lines[..|lines| - 1]);
    }
  }

  lemma {:induction false} GroupInConcat(groups: seq<seq<string>>, i: nat)
    requires i < |groups|
    ensures forall x :: x in groups[i] ==> x in Concat(groups)
  {
    if i < |groups| - 1 { GroupInConcat(groups[..|groups| - 1], i); }
  }

  /** With newline-free lines the groups can be read off the messages themselves: splitting a
      message gives one line that opens no block, or a whole block. */
  lemma MessagesSplitIntoGroups(events: seq<Event>, cap: nat, key: Key, i: nat)
    requires forall j :: 0 <= j < |Accepted(events, cap, key)| ==> '\n' !in Accepted(events, cap, key)[j]
    requires i < |Messages(Run(events, cap), key)|
    ensures IsGroup(SplitLines(Messages(Run(events, cap), key)[i] + "\n"))
  {
    hide SplitLines, Joined, IsGroup, Messages, Run, PastOf, Concat, Accepted, Glue;
    RunPartitions(events, cap, key);
    var groups := PastOf(events, cap, key).groups;
    GroupInConcat(groups, i);
    var accepted := Accepted(events, cap, key);
    forall j | 0 <= j < |groups[i]| ensures '\n' !in groups[i][j] {
      assert groups[i][j] in Concat(groups);
      assert groups[i][j] in accepted;
    }
    IsGroupNonEmpty(groups[i]);
    GroupTerminated(groups[i]);
    JoinedBothWays(groups[i]);
    SplitUndoesJoin(groups[i]);
  }

  lemma IsGroupNonEmpty(lines: seq<string>)
    requires IsGroup(lines)
    ensures lines != []
  {}

  // ---------------------------------------------------------------- the object

  /** The main thread's part of a drain, as the events it performs. */
  function TakeMany(l: Logs, n: nat, clock: nat -> real): Logs {
    if n == 0 then l else Take(TakeMany(l, n - 1, clock), clock(n))
  }

  class ProcessLogs {
    const cap: nat
    var queue: seq<Item>
    var dropped: nat
    var pending: Dict<Key, Block>
    var emitted: seq<Emitted>
    var reported: nat

    ghost function View(): Logs
      reads this
    {
      Logs(BoundedQueue.Queue(queue, 0, dropped), pending, emitted, reported)
    }

    constructor (cap: nat)
      ensures this.cap == cap && View() == INITIAL
    {
      this.cap := cap;
      queue, dropped, pending, emitted, reported := [], 0, Empty(), [], 0;
    }

    method QueueSupervisorLog(item: Item)
      modifies this`queue, this`dropped
      ensures View() == Step(Step(old(View()), Queue(item), cap), Bump, cap)
    {
      if |queue| < cap { queue := queue + [item]; } else { dropped := dropped + 1; }
    }

    method EmitSupervisorItem(key: Key, message: string)
      modifies this`emitted
      ensures View() == Emit(old(View()), key, message)
      ensures emitted == old(emitted) + if message == "" then [] else [Emitted(key, message)]
    {
      if message == "" { return; }
      emitted := emitted + [Emitted(key, message)];
    }

    method FlushStaleSupervisorBlocks(now: real, force: bool)
      modifies this`pending, this`emitted
      ensures View() == Flush(old(View()), now, force)
    {
      var staleKeys := [];
      for i := 0 to |pending.keys|
        invariant staleKeys == StaleKeys(pending, pending.keys[..i], now, force)
      {
        var key := pending.keys[i];
        assert pending.keys[..i + 1][..i] == pending.keys[..i];
        if force || (key in pending.vals && now - pending.vals[key].lastUpdate >= MAX_AGE_S) {
          staleKeys := staleKeys + [key];
        }
      }
      assert pending.keys[..|pending.keys|] == pending.keys;
      CloseBlocks(staleKeys);
    }

    method CloseBlocks(staleKeys: seq<Key>)
      modifies this`pending, this`emitted
      ensures View() == CloseAll(old(View()), staleKeys)
    {
      ghost var l := View();
      for i := 0 to |staleKeys|
        invariant View() == CloseAll(l, staleKeys[..i])
      {
        assert staleKeys[..i + 1][..i] == staleKeys[..i];
        if staleKeys[i] in pending.vals {
          var popped := pending.vals[staleKeys[i]];
          pending := Pop(pending, staleKeys[i]);
          EmitSupervisorItem(staleKeys[i], popped.message);
        }
      }
      assert staleKeys[..|staleKeys|] == staleKeys;
    }

    /** One turn of the drain loop on a non-empty queue. */
    method TakeItem(now: real)
      requires queue != []
      modifies this`queue, this`pending, this`emitted
      ensures View() == Take(old(View()), now)
    {
      hide StartsBlock, ContinuesBlock;
      var item := queue[0];
      queue := queue[1..];
      if item.Junk? || item.message == "" { return; }
      var key, message := item.key, item.message;
      if key in pending.vals {
        var block := pending.vals[key];
        if ContinuesBlock(message) {
          var grown := if block.message != "" then block.message + "\n" + message else message;
          pending := Put(pending, key, Block(grown, now));
          return;
        }
        pending := Pop(pending, key);
        EmitSupervisorItem(key, block.message);
      }
      if StartsBlock(message) {
        pending := Put(pending, key, Block(message, now));
      } else {
        EmitSupervisorItem(key, message);
      }
    }

    /** `clock(i)` is the i-th reading of the monotonic clock during this drain. */
    method DrainSupervisorLogs(maxItems: nat, clock: nat -> real) returns (drained: nat)
      modifies this
      ensures drained == if |old(queue)| < maxItems then |old(queue)| else maxItems
      ensures View() == Flush(TakeMany(Flush(Step(old(View()), Snapshot, cap), clock(0), false), drained, clock),
                              clock(drained + 1), false)
    {
      hide Take, Flush;
      drained := 0;
      var snapshot := dropped;
      dropped := 0;
      if snapshot > 0 { reported := reported + snapshot; }
      FlushStaleSupervisorBlocks(clock(0), false);
      ghost var l := View();
      while drained < maxItems && queue != []
        invariant drained <= maxItems && drained <= |old(queue)| && queue == old(queue)[drained..]
        invariant View() == TakeMany(l, drained, clock)
        decreases |queue|
      {
        drained := drained + 1;
        TakeItem(clock(drained));
        TakeShrinks(TakeMany(l, drained - 1, clock), clock(drained));
      }
      FlushStaleSupervisorBlocks(clock(drained + 1), false);
    }
  }

  lemma TakeShrinks(l: Logs, now: real)
    requires l.queue.items != []
    ensures Take(l, now).queue.items == l.queue.items[1..]
  {
    AcceptText(l.(queue := BoundedQueue.GetNowait(l.queue)), l.queue.items[0], now, Key("", "", 0, ""));
  }
}
