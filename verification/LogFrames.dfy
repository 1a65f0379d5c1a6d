/**
 * `extract_program_data`: a stack machine that attributes data lines of a transaction log to the program that wrote
 * them. The runtime prints a call tree; the machine must recover exactly the target's own data lines. Free log text
 * can imitate an invocation line, and the exact effect of that is stated too.
 */
module LogFrames {
  import opened Base

  const PROGRAM_PREFIX: string := "Program "
  const INVOKE_MARKER: string := " invoke ["
  const SUCCESS_SUFFIX: string := " success"
  const FAILED_MARKER: string := " failed: "
  const DATA_PREFIX: string := "data: "
  const LOG_PREFIX: string := "log: "

  // ------------------------------------------------------------------------ strings

  predicate StartsWith(s: string, p: string) {
    |p| <= |s| && s[..|p|] == p
  }

  predicate EndsWith(s: string, p: string) {
    |p| <= |s| && s[|s| - |p|..] == p
  }

  /** `str::split_once`: the text before the first occurrence of the marker. */
  function BeforeFirst(s: string, m: string): (r: Option<string>)
    ensures r.Some? ==> |r.value| <= |s| && r.value == s[..|r.value|] && StartsWith(s[|r.value|..], m)
    ensures r.Some? ==> forall k :: 0 <= k < |r.value| ==> !StartsWith(s[k..], m)
    ensures r.None? ==> forall k :: 0 <= k <= |s| ==> !StartsWith(s[k..], m)
  {
    if StartsWith(s, m) then Some("")
    else if s == "" then None
    else
      var rest := BeforeFirst(s[1..], m);
      assert forall k :: 0 < k <= |s| ==> s[k..] == s[1..][k - 1..];
      if rest.None? then None
      else
        assert s == [s[0]] + s[1..];
        Some([s[0]] + rest.value)
  }

  /** The first occurrence is where we know it to be. */
  lemma FirstAt(s: string, m: string, k: nat)
    requires k <= |s| && StartsWith(s[k..], m)
    requires forall i :: 0 <= i < k ==> !StartsWith(s[i..], m)
    ensures BeforeFirst(s, m) == Some(s[..k])
  {
  }

  // ------------------------------------------------------------------------ parsing

  /** `parse_invocation`. */
  function ParseInvocation(line: string): Option<string> {
    if StartsWith(line, PROGRAM_PREFIX) then BeforeFirst(line[|PROGRAM_PREFIX|..], INVOKE_MARKER) else None
  }

  /** `parse_completion`. */
  function ParseCompletion(line: string): Option<string> {
    if !StartsWith(line, PROGRAM_PREFIX) then None
    else
      var rest := line[|PROGRAM_PREFIX|..];
      if EndsWith(rest, SUCCESS_SUFFIX) then Some(rest[..|rest| - |SUCCESS_SUFFIX|])
      else BeforeFirst(rest, FAILED_MARKER)
  }

  predicate IsData(line: string) {
    StartsWith(line, PROGRAM_PREFIX + DATA_PREFIX)
  }

  datatype Event = Event(index: nat, payload: string)

  datatype State = State(stack: seq<string>, events: seq<Event>)

  /** One iteration of the loop. */
  function Step(state: State, index: nat, line: string, target: string): State {
    var invoked := ParseInvocation(line);
    if invoked.Some? then state.(stack := state.stack + [invoked.value])
    else if IsData(line) then
      if state.stack != [] && state.stack[|state.stack| - 1] == target
      then state.(events := state.events + [Event(index, line[|PROGRAM_PREFIX| + |DATA_PREFIX|..])])
      else state
    else
      var completed := ParseCompletion(line);
      if completed.Some? && state.stack != [] && state.stack[|state.stack| - 1] == completed.value
      then state.(stack := state.stack[..|state.stack| - 1])
      else state
  }

  function Run(state: State, index: nat, lines: seq<string>, target: string): State
    decreases |lines|
  {
    if lines == [] then state else Run(Step(state, index, lines[0], target), index + 1, lines[1..], target)
  }

  /** The loop of `extract_program_data`. */
  method ExtractProgramData(logs: seq<string>, target: string) returns (events: seq<Event>)
    ensures events == Run(State([], []), 0, logs, target).events
  {
    hide Step;
    var stack: seq<string> := [];
    events := [];
    for i := 0 to |logs|
      invariant Run(State([], []), 0, logs, target) == Run(State(stack, events), i, logs[i..], target)
    {
      var line := logs[i];
      ghost var before := State(stack, events);
      assert logs[i..][0] == line && logs[i..][1..] == logs[i + 1..];
      stack, events := TakeLine(stack, events, i, line, target);
      assert Run(before, i, logs[i..], target) == Run(Step(before, i, line, target), i + 1, logs[i + 1..], target);
    }
  }

  /** The loop body: push, append or pop. */
  method TakeLine(stack0: seq<string>, events0: seq<Event>, index: nat, line: string, target: string)
    returns (stack: seq<string>, events: seq<Event>)
    ensures State(stack, events) == Step(State(stack0, events0), index, line, target)
  {
    stack, events := stack0, events0;
    var invoked := ParseInvocation(line);
    if invoked.Some? {
      stack := stack + [invoked.value];
    } else if IsData(line) {
      if stack != [] && stack[|stack| - 1] == target {
        events := events + [Event(index, line[|PROGRAM_PREFIX| + |DATA_PREFIX|..])];
      }
    } else {
      var completed := ParseCompletion(line);
      if completed.Some? && stack != [] && stack[|stack| - 1] == completed.value {
        stack := stack[..|stack| - 1];
      }
    }
  }

  lemma {:induction false} RunJoin(state: State, index: nat, a: seq<string>, b: seq<string>, target: string)
    ensures Run(state, index, a + b, target) == Run(Run(state, index, a, target), index + |a|, b, target)
    decreases |a|
  {
    hide Step;
    if a == [] {
      assert a + b == b;
    } else {
      RunJoin(Step(state, index, a[0], target), index + 1, a[1..], b, target);
      assert (a + b)[0] == a[0] && (a + b)[1..] == a[1..] + b;
    }
  }

  // ----------------------------------------------------------------- what the runtime prints

  datatype Exit = Succeeded | FailedWith(reason: string)

  datatype Item = Log(text: string) | Note(line: string) | Data(payload: string) | Sub(call: Call)

  /** One frame: its program, the printed depth, what it logged and called in order, and how it ended. */
  datatype Call = Call(program: string, depth: string, items: seq<Item>, exit: Exit)

  function InvokeLine(c: Call): string {
    PROGRAM_PREFIX + (c.program + (INVOKE_MARKER + c.depth))
  }

  function ExitLine(c: Call): string {
    PROGRAM_PREFIX + (c.program + (if c.exit.Succeeded? then SUCCESS_SUFFIX else FAILED_MARKER + c.exit.reason))
  }

  function PrintItem(item: Item): seq<string>
    decreases item
  {
    match item
    case Log(text) => [PROGRAM_PREFIX + (LOG_PREFIX + text)]
    case Note(line) => [line]
    case Data(payload) => [PROGRAM_PREFIX + (DATA_PREFIX + payload)]
    case Sub(call) => PrintCall(call)
  }

  function PrintItems(items: seq<Item>): seq<string>
    decreases items
  {
    if items == [] then [] else PrintItem(items[0]) + PrintItems(items[1..])
  }

  function PrintCall(c: Call): seq<string>
    decreases c
  {
    [InvokeLine(c)] + (PrintItems(c.items) + [ExitLine(c)])
  }

  // ------------------------------------------------------------------- reading the lines

  /** Program keys are Base58: no space, no colon. */
  predicate KeyText(s: string) {
    forall c <- s :: c != ' ' && c != ':'
  }

  lemma PrefixedLine(rest: string)
    ensures StartsWith(PROGRAM_PREFIX + rest, PROGRAM_PREFIX) && (PROGRAM_PREFIX + rest)[|PROGRAM_PREFIX|..] == rest
    ensures IsData(PROGRAM_PREFIX + rest) <==> StartsWith(rest, DATA_PREFIX)
    ensures IsData(PROGRAM_PREFIX + rest) ==> (PROGRAM_PREFIX + rest)[|PROGRAM_PREFIX| + |DATA_PREFIX|..] == rest[|DATA_PREFIX|..]
  {
    var line := PROGRAM_PREFIX + rest;
    if StartsWith(rest, DATA_PREFIX) {
      assert line[..|PROGRAM_PREFIX + DATA_PREFIX|] == PROGRAM_PREFIX + rest[..|DATA_PREFIX|];
    }
    if IsData(line) {
      assert rest[..|DATA_PREFIX|] == line[..|PROGRAM_PREFIX + DATA_PREFIX|][|PROGRAM_PREFIX|..];
    }
  }

  /** A marker that starts with a space cannot start inside a key. */
  lemma KeyHasNoMarker(key: string, rest: string, m: string)
    requires KeyText(key) && m != "" && m[0] == ' '
    ensures forall i :: 0 <= i < |key| ==> !StartsWith((key + rest)[i..], m)
  {
    forall i | 0 <= i < |key| ensures !StartsWith((key + rest)[i..], m) {
      assert (key + rest)[i..][0] == key[i] && key[i] in key;
    }
  }

  lemma InvokeLineParses(c: Call)
    requires KeyText(c.program)
    ensures ParseInvocation(InvokeLine(c)) == Some(c.program)
  {
    var rest := c.program + (INVOKE_MARKER + c.depth);
    PrefixedLine(rest);
    KeyHasNoMarker(c.program, INVOKE_MARKER + c.depth, INVOKE_MARKER);
    assert rest[|c.program|..] == INVOKE_MARKER + c.depth && rest[..|c.program|] == c.program;
    FirstAt(rest, INVOKE_MARKER, |c.program|);
  }

  lemma NotMarker(t: string)
    requires |t| > 8 ==> t[8] != '['
    ensures !StartsWith(t, INVOKE_MARKER)
  {
    assert INVOKE_MARKER[8] == '[';
  }

  /** A text without the marker's bracket never contains the marker. */
  lemma NoBracketNoMarker(s: string)
    requires '[' !in s
    ensures BeforeFirst(s, INVOKE_MARKER).None?
  {
    hide StartsWith;
    forall k | 0 <= k <= |s| ensures !StartsWith(s[k..], INVOKE_MARKER) {
      if k + 8 < |s| { assert s[k..][8] == s[k + 8] && s[k + 8] in s; }
      NotMarker(s[k..]);
    }
  }

  /** Runtime error text: it holds no invocation marker, and does not itself end like a success line. */
  predicate ExitText(e: Exit) {
    e.FailedWith? ==> BeforeFirst(FAILED_MARKER + e.reason, INVOKE_MARKER).None? && !EndsWith(FAILED_MARKER + e.reason, SUCCESS_SUFFIX)
  }

  /** A key in front of a text adds no marker. */
  lemma KeyThenTail(key: string, tail: string)
    requires KeyText(key) && BeforeFirst(tail, INVOKE_MARKER).None?
    ensures BeforeFirst(key + tail, INVOKE_MARKER).None?
  {
    hide StartsWith, BeforeFirst;
    KeyHasNoMarker(key, tail, INVOKE_MARKER);
    forall k | |key| <= k <= |key + tail| ensures !StartsWith((key + tail)[k..], INVOKE_MARKER) {
      assert (key + tail)[k..] == tail[k - |key|..];
    }
  }

  lemma NotDataLine(key: string, tail: string)
    requires KeyText(key) && tail != "" && tail[0] == ' '
    ensures !StartsWith(key + tail, DATA_PREFIX)
  {
    var rest := key + tail;
    assert |key| > 4 ==> rest[4] == key[4] && key[4] in key;
    assert rest[|key|] == ' ';
  }

  lemma OtherStart(rest: string)
    requires rest != "" && rest[0] != 'd'
    ensures !StartsWith(rest, DATA_PREFIX)
  {
  }

  lemma SuccessParses(key: string)
    requires KeyText(key)
    ensures ParseCompletion(PROGRAM_PREFIX + (key + SUCCESS_SUFFIX)) == Some(key)
  {
    var rest := key + SUCCESS_SUFFIX;
    PrefixedLine(rest);
    assert rest[|rest| - 8..] == SUCCESS_SUFFIX && rest[..|rest| - 8] == key;
  }

  lemma FailureParses(key: string, reason: string)
    requires KeyText(key) && !EndsWith(FAILED_MARKER + reason, SUCCESS_SUFFIX)
    ensures ParseCompletion(PROGRAM_PREFIX + (key + (FAILED_MARKER + reason))) == Some(key)
  {
    var tail := FAILED_MARKER + reason;
    var rest := key + tail;
    PrefixedLine(rest);
    SuffixOfTail(key, tail);
    KeyHasNoMarker(key, tail, FAILED_MARKER);
    assert rest[|key|..] == tail && rest[..|key|] == key;
    FirstAt(rest, FAILED_MARKER, |key|);
  }

  lemma ExitLineParses(c: Call)
    requires KeyText(c.program) && ExitText(c.exit)
    ensures ParseInvocation(ExitLine(c)).None? && !IsData(ExitLine(c))
    ensures ParseCompletion(ExitLine(c)) == Some(c.program)
  {
    hide BeforeFirst, StartsWith, EndsWith, ParseCompletion, IsData, KeyText;
    var tail := if c.exit.Succeeded? then SUCCESS_SUFFIX else FAILED_MARKER + c.exit.reason;
    PrefixedLine(c.program + tail);
    NotDataLine(c.program, tail);
    if c.exit.Succeeded? {
      assert '[' !in SUCCESS_SUFFIX;
      NoBracketNoMarker(tail);
      SuccessParses(c.program);
    } else {
      FailureParses(c.program, c.exit.reason);
    }
    KeyThenTail(c.program, tail);
  }

  lemma SuffixOfTail(key: string, tail: string)
    requires |tail| >= |SUCCESS_SUFFIX|
    ensures EndsWith(key + tail, SUCCESS_SUFFIX) == EndsWith(tail, SUCCESS_SUFFIX)
  {
    assert (key + tail)[|key + tail| - 8..] == tail[|tail| - 8..];
  }

  lemma DataLineParses(payload: string)
    requires '[' !in payload
    ensures var line := PROGRAM_PREFIX + (DATA_PREFIX + payload);
      ParseInvocation(line).None? && IsData(line) && line[|PROGRAM_PREFIX| + |DATA_PREFIX|..] == payload
  {
    PrefixedLine(DATA_PREFIX + payload);
    assert '[' !in DATA_PREFIX;
    NoBracketNoMarker(DATA_PREFIX + payload);
  }

  /** What free log text is taken for: never data, and never the name of a real program. */
  lemma LogLineParses(text: string)
    ensures var line := PROGRAM_PREFIX + (LOG_PREFIX + text);
      && !IsData(line)
      && ParseInvocation(line) == BeforeFirst(LOG_PREFIX + text, INVOKE_MARKER)
      && (ParseInvocation(line).Some? ==> !KeyText(ParseInvocation(line).value))
      && (ParseCompletion(line).Some? ==> !KeyText(ParseCompletion(line).value))
  {
    var rest := LOG_PREFIX + text;
    PrefixedLine(rest);
    assert rest[0] == 'l' && rest[3] == ':';
    OtherStart(rest);
    LogName(rest, INVOKE_MARKER);
    LogName(rest, FAILED_MARKER);
    if EndsWith(rest, SUCCESS_SUFFIX) {
      assert rest[|rest| - 8..][0] == ' ';
      var name := rest[..|rest| - 8];
      assert |name| >= 4;
      assert name[3] == ':' && name[3] in name;
    }
  }

  lemma LogName(rest: string, m: string)
    requires |rest| >= 5 && rest[..5] == LOG_PREFIX && m != "" && m[0] == ' '
    ensures BeforeFirst(rest, m).Some? ==> !KeyText(BeforeFirst(rest, m).value)
  {
    var r := BeforeFirst(rest, m);
    if r.Some? {
      var k := |r.value|;
      assert rest[k..][0] == m[0];
      assert rest[..5][0] == 'l' && rest[..5][1] == 'o' && rest[..5][2] == 'g' && rest[..5][3] == ':';
      assert k >= 4;
      assert r.value[3] == ':' && r.value[3] in r.value;
    }
  }

  // --------------------------------------------------------------- what should be attributed

  /** Data lines whose own frame is the target program, in log order, with their indexes in the whole log. */
  function ExpectedItem(item: Item, owner: string, target: string, index: nat): seq<Event>
    decreases item
  {
    match item
    case Data(payload) => if owner == target then [Event(index, payload)] else []
    case Sub(call) => ExpectedCall(call, target, index)
    case _ => []
  }

  function ExpectedItems(items: seq<Item>, owner: string, target: string, index: nat): seq<Event>
    decreases items
  {
    if items == [] then []
    else ExpectedItem(items[0], owner, target, index) + ExpectedItems(items[1..], owner, target, index + |PrintItem(items[0])|)
  }

  function ExpectedCall(c: Call, target: string, index: nat): seq<Event>
    decreases c
  {
    ExpectedItems(c.items, c.program, target, index + 1)
  }

  // -------------------------------------------------------------- what the machine holds open

  /** The frame a free text line opens, if it contains the marker. */
  function FakeFrame(text: string): Option<string> {
    BeforeFirst(LOG_PREFIX + text, INVOKE_MARKER)
  }

  /** The frame a free text line closes when that name is innermost, as "x success" closes "log: x". */
  function ClosedName(text: string): Option<string> {
    ParseCompletion(PROGRAM_PREFIX + (LOG_PREFIX + text))
  }

  /**
   * The names the machine holds open above a frame, innermost last: imitations that no text has closed yet, and real
   * frames stuck beneath them because their exit line met an imitation.
   */
  function OpenAfterText(text: string, open: seq<string>): seq<string> {
    if FakeFrame(text).Some? then open + [FakeFrame(text).value]
    else if open != [] && ClosedName(text) == Some(open[|open| - 1]) then open[..|open| - 1]
    else open
  }

  function OpenAfterItem(item: Item, open: seq<string>): seq<string>
    decreases item
  {
    match item
    case Log(text) => OpenAfterText(text, open)
    case Sub(call) => open + Residue(call)
    case _ => open
  }

  function OpenAfter(items: seq<Item>, open: seq<string>): seq<string>
    decreases items
  {
    if items == [] then open else OpenAfter(items[1..], OpenAfterItem(items[0], open))
  }

  /** What a finished call leaves open: nothing, unless its exit line met an open name. */
  function Residue(c: Call): seq<string>
    decreases c
  {
    var frames := [c.program] + OpenAfter(c.items, []);
    if frames[|frames| - 1] == c.program then frames[..|frames| - 1] else frames
  }

  /** A printed data line: the program whose frame wrote it, and the name the machine then holds innermost. */
  datatype DataLine = DataLine(index: nat, payload: string, owner: string, reader: string)

  function Reader(owner: string, open: seq<string>): string {
    if open == [] then owner else open[|open| - 1]
  }

  function LinesOfItem(item: Item, owner: string, open: seq<string>, index: nat): seq<DataLine>
    decreases item
  {
    match item
    case Data(payload) => [DataLine(index, payload, owner, Reader(owner, open))]
    case Sub(call) => LinesOfCall(call, index)
    case _ => []
  }

  function LinesOfItems(items: seq<Item>, owner: string, open: seq<string>, index: nat): seq<DataLine>
    decreases items
  {
    if items == [] then []
    else LinesOfItem(items[0], owner, open, index)
         + LinesOfItems(items[1..], owner, OpenAfterItem(items[0], open), index + |PrintItem(items[0])|)
  }

  function LinesOfCall(c: Call, index: nat): seq<DataLine>
    decreases c
  {
    LinesOfItems(c.items, c.program, [], index + 1)
  }

  /** A line of the target's own that the machine gives to an open name instead. */
  predicate Lost(d: DataLine, target: string) {
    d.owner == target && d.reader != target
  }

  /** A line of another program that the machine gives to a stuck frame of the target. */
  predicate Forged(d: DataLine, target: string) {
    d.owner != target && d.reader == target
  }

  function EventOf(d: DataLine): Event {
    Event(d.index, d.payload)
  }

  /** The events of the lines written by the target (`written`), or read as the target's. */
  function Picked(lines: seq<DataLine>, target: string, written: bool): seq<Event> {
    if lines == [] then []
    else (if (if written then lines[0].owner else lines[0].reader) == target then [EventOf(lines[0])] else [])
         + Picked(lines[1..], target, written)
  }

  lemma {:induction false} PickedJoin(a: seq<DataLine>, b: seq<DataLine>, target: string, written: bool)
    ensures Picked(a + b, target, written) == Picked(a, target, written) + Picked(b, target, written)
    decreases |a|
  {
    hide EventOf;
    if a == [] {
      assert a + b == b;
    } else {
      var first := if (if written then a[0].owner else a[0].reader) == target then [EventOf(a[0])] else [];
      PickedJoin(a[1..], b, target, written);
      assert (a + b)[0] == a[0] && (a + b)[1..] == a[1..] + b;
      assert Picked(a, target, written) == first + Picked(a[1..], target, written);
      assert Picked(a + b, target, written) == first + Picked(a[1..] + b, target, written);
      hide Picked;
    }
  }

  lemma PickedOne(d: DataLine, target: string, written: bool)
    ensures Picked([d], target, written) == if (if written then d.owner else d.reader) == target then [EventOf(d)] else []
  {
    assert [d][1..] == [];
  }

  // ------------------------------------------------------------------ the machine on a tree

  /** A line the machine ignores, such as compute usage. */
  predicate Inert(line: string) {
    ParseInvocation(line).None? && !IsData(line) && ParseCompletion(line).None?
  }

  /** The runtime's own text is well formed. Logged texts are arbitrary. */
  predicate PrintableItem(item: Item)
    decreases item
  {
    match item
    case Log(text) => true
    case Note(line) => Inert(line)
    case Data(payload) => '[' !in payload
    case Sub(call) => PrintableCall(call)
  }

  predicate PrintableItems(items: seq<Item>)
    decreases items
  {
    items == [] || (PrintableItem(items[0]) && PrintableItems(items[1..]))
  }

  predicate PrintableCall(c: Call)
    decreases c
  {
    KeyText(c.program) && ExitText(c.exit) && PrintableItems(c.items)
  }

  lemma RunOne(state: State, index: nat, line: string, target: string)
    ensures Run(state, index, [line], target) == Step(state, index, line, target)
  {
    hide Step;
    assert [line][1..] == [];
  }

  /** `frame` is the stack up to the innermost real frame. */
  predicate Frame(frame: seq<string>, owner: string) {
    frame != [] && frame[|frame| - 1] == owner && KeyText(owner)
  }

  lemma StepText(frame: seq<string>, open: seq<string>, events: seq<Event>, index: nat, text: string, owner: string, target: string)
    requires Frame(frame, owner)
    ensures Step(State(frame + open, events), index, PROGRAM_PREFIX + (LOG_PREFIX + text), target)
      == State(frame + OpenAfterText(text, open), events)
  {
    LogLineParses(text);
    hide ParseInvocation, ParseCompletion, IsData, BeforeFirst, KeyText;
    if FakeFrame(text).Some? {
      assert frame + open + [FakeFrame(text).value] == frame + (open + [FakeFrame(text).value]);
    } else if open == [] {
      assert frame + open == frame;
    } else {
      assert (frame + open)[..|frame + open| - 1] == frame + open[..|open| - 1];
    }
  }

  lemma StepData(frame: seq<string>, open: seq<string>, events: seq<Event>, index: nat, payload: string, owner: string, target: string)
    requires Frame(frame, owner) && '[' !in payload
    ensures Step(State(frame + open, events), index, PROGRAM_PREFIX + (DATA_PREFIX + payload), target)
      == State(frame + open, events + Picked(LinesOfItem(Data(payload), owner, open, index), target, false))
  {
    DataLineParses(payload);
    hide ParseInvocation, ParseCompletion, IsData, KeyText;
    PickedOne(LinesOfItem(Data(payload), owner, open, index)[0], target, false);
  }

  lemma StepNote(state: State, index: nat, line: string, target: string)
    requires Inert(line)
    ensures Step(state, index, line, target) == state
  {
    hide ParseInvocation, ParseCompletion, IsData;
  }

  lemma RunItem(frame: seq<string>, open: seq<string>, events: seq<Event>, index: nat, item: Item, owner: string, target: string)
    requires PrintableItem(item) && Frame(frame, owner)
    ensures Run(State(frame + open, events), index, PrintItem(item), target)
      == State(frame + OpenAfterItem(item, open), events + Picked(LinesOfItem(item, owner, open, index), target, false))
    decreases item
  {
    hide Step, Frame, ParseInvocation, ParseCompletion, IsData, BeforeFirst, OpenAfterText, Run, PrintCall, LinesOfCall, Residue, PrintableCall;
    match item {
      case Sub(call) =>
        RunCall(State(frame + open, events), index, call, target);
        assert frame + open + Residue(call) == frame + (open + Residue(call));
      case Log(text) =>
        StepText(frame, open, events, index, text, owner, target);
        RunOne(State(frame + open, events), index, PROGRAM_PREFIX + (LOG_PREFIX + text), target);
      case Note(line) =>
        StepNote(State(frame + open, events), index, line, target);
        RunOne(State(frame + open, events), index, line, target);
      case Data(payload) =>
        StepData(frame, open, events, index, payload, owner, target);
        RunOne(State(frame + open, events), index, PROGRAM_PREFIX + (DATA_PREFIX + payload), target);
    }
  }

  lemma RunItems(frame: seq<string>, open: seq<string>, events: seq<Event>, index: nat, items: seq<Item>, owner: string, target: string)
    requires PrintableItems(items) && Frame(frame, owner)
    ensures Run(State(frame + open, events), index, PrintItems(items), target)
      == State(frame + OpenAfter(items, open), events + Picked(LinesOfItems(items, owner, open, index), target, false))
    decreases items
  {
    hide Step, Frame, PrintItem, LinesOfItem, OpenAfterItem, PrintableItem;
    if items != [] {
      var first := LinesOfItem(items[0], owner, open, index);
      var after, next := OpenAfterItem(items[0], open), index + |PrintItem(items[0])|;
      RunItem(frame, open, events, index, items[0], owner, target);
      RunJoin(State(frame + open, events), index, PrintItem(items[0]), PrintItems(items[1..]), target);
      RunItems(frame, after, events + Picked(first, target, false), next, items[1..], owner, target);
      PickedJoin(first, LinesOfItems(items[1..], owner, after, next), target, false);
    }
  }

  /** Running the machine over a printed call leaves exactly its residue and adds the lines read as the target's. */
  lemma RunCall(state: State, index: nat, c: Call, target: string)
    requires PrintableCall(c)
    ensures Run(state, index, PrintCall(c), target)
      == State(state.stack + Residue(c), state.events + Picked(LinesOfCall(c, index), target, false))
    decreases c
  {
    hide KeyText, ParseInvocation, ParseCompletion, IsData, PrintItems, Picked, LinesOfItems, OpenAfter, PrintableItems, InvokeLine, ExitLine;
    InvokeLineParses(c);
    ExitLineParses(c);
    RunJoin(state, index, [InvokeLine(c)], PrintItems(c.items) + [ExitLine(c)], target);
    RunOne(state, index, InvokeLine(c), target);
    var frame := state.stack + [c.program];
    assert frame + [] == frame;
    RunJoin(State(frame, state.events), index + 1, PrintItems(c.items), [ExitLine(c)], target);
    RunItems(frame, [], state.events, index + 1, c.items, c.program, target);
    var inside := Run(State(frame, state.events), index + 1, PrintItems(c.items), target);
    RunOne(inside, index + 1 + |PrintItems(c.items)|, ExitLine(c), target);
    var frames := [c.program] + OpenAfter(c.items, []);
    assert inside.stack == state.stack + frames;
    assert inside.stack[..|inside.stack| - 1] == state.stack + frames[..|frames| - 1];
  }

  // ------------------------------------------------------------------- whole transactions

  /** A transaction's log: its top-level calls one after the other. */
  function PrintAll(calls: seq<Call>): seq<string> {
    if calls == [] then [] else PrintCall(calls[0]) + PrintAll(calls[1..])
  }

  function ExpectedAll(calls: seq<Call>, target: string, index: nat): seq<Event> {
    if calls == [] then []
    else ExpectedCall(calls[0], target, index) + ExpectedAll(calls[1..], target, index + |PrintCall(calls[0])|)
  }

  function LinesOfAll(calls: seq<Call>, index: nat): seq<DataLine> {
    if calls == [] then [] else LinesOfCall(calls[0], index) + LinesOfAll(calls[1..], index + |PrintCall(calls[0])|)
  }

  predicate PrintableAll(calls: seq<Call>) {
    forall c <- calls :: PrintableCall(c)
  }

  lemma {:induction false} RunAll(state: State, index: nat, calls: seq<Call>, target: string)
    requires PrintableAll(calls)
    ensures Run(state, index, PrintAll(calls), target).events == state.events + Picked(LinesOfAll(calls, index), target, false)
    decreases |calls|
  {
    hide Step, PrintCall, LinesOfCall, PrintableCall;
    if calls != [] {
      var first, next := LinesOfCall(calls[0], index), index + |PrintCall(calls[0])|;
      assert calls[0] in calls && forall c <- calls[1..] :: c in calls;
      RunCall(state, index, calls[0], target);
      RunJoin(state, index, PrintCall(calls[0]), PrintAll(calls[1..]), target);
      RunAll(Run(state, index, PrintCall(calls[0]), target), next, calls[1..], target);
      PickedJoin(first, LinesOfAll(calls[1..], next), target, false);
    }
  }

  // The lines written by the target are the expected events.

  lemma WrittenItem(item: Item, owner: string, open: seq<string>, target: string, index: nat)
    ensures Picked(LinesOfItem(item, owner, open, index), target, true) == ExpectedItem(item, owner, target, index)
    decreases item
  {
    match item {
      case Sub(call) => WrittenItems(call.items, call.program, [], target, index + 1);
      case Data(payload) => PickedOne(LinesOfItem(item, owner, open, index)[0], target, true);
      case _ =>
    }
  }

  lemma WrittenItems(items: seq<Item>, owner: string, open: seq<string>, target: string, index: nat)
    ensures Picked(LinesOfItems(items, owner, open, index), target, true) == ExpectedItems(items, owner, target, index)
    decreases items
  {
    hide LinesOfItem, ExpectedItem, PrintItem, OpenAfterItem;
    if items != [] {
      var after, next := OpenAfterItem(items[0], open), index + |PrintItem(items[0])|;
      WrittenItem(items[0], owner, open, target, index);
      WrittenItems(items[1..], owner, after, target, next);
      PickedJoin(LinesOfItem(items[0], owner, open, index), LinesOfItems(items[1..], owner, after, next), target, true);
    }
  }

  lemma {:induction false} WrittenAll(calls: seq<Call>, target: string, index: nat)
    ensures Picked(LinesOfAll(calls, index), target, true) == ExpectedAll(calls, target, index)
  {
    hide LinesOfItems, ExpectedItems, PrintCall;
    if calls != [] {
      var next := index + |PrintCall(calls[0])|;
      WrittenItems(calls[0].items, calls[0].program, [], target, index + 1);
      WrittenAll(calls[1..], target, next);
      PickedJoin(LinesOfCall(calls[0], index), LinesOfAll(calls[1..], next), target, true);
    }
  }

  // Every data line has its own index.

  ghost predicate Within(lines: seq<DataLine>, from: nat, to: nat) {
    && (forall d <- lines :: from <= d.index < to)
    && (forall i, j :: 0 <= i < j < |lines| ==> lines[i].index < lines[j].index)
  }

  lemma WithinJoin(a: seq<DataLine>, b: seq<DataLine>, from: nat, mid: nat, to: nat)
    requires Within(a, from, mid) && Within(b, mid, to) && from <= mid <= to
    ensures Within(a + b, from, to)
  {
  }

  lemma LinesWithinItem(item: Item, owner: string, open: seq<string>, index: nat)
    ensures Within(LinesOfItem(item, owner, open, index), index, index + |PrintItem(item)|)
    decreases item
  {
    if item.Sub? { LinesWithinItems(item.call.items, item.call.program, [], index + 1); }
  }

  lemma LinesWithinItems(items: seq<Item>, owner: string, open: seq<string>, index: nat)
    ensures Within(LinesOfItems(items, owner, open, index), index, index + |PrintItems(items)|)
    decreases items
  {
    hide LinesOfItem, PrintItem, OpenAfterItem;
    if items != [] {
      var after, mid := OpenAfterItem(items[0], open), index + |PrintItem(items[0])|;
      LinesWithinItem(items[0], owner, open, index);
      LinesWithinItems(items[1..], owner, after, mid);
      WithinJoin(LinesOfItem(items[0], owner, open, index), LinesOfItems(items[1..], owner, after, mid), index, mid, index + |PrintItems(items)|);
    }
  }

  lemma {:induction false} LinesWithinAll(calls: seq<Call>, index: nat)
    ensures Within(LinesOfAll(calls, index), index, index + |PrintAll(calls)|)
  {
    hide LinesOfItems, PrintItems;
    if calls != [] {
      var mid := index + |PrintCall(calls[0])|;
      LinesWithinItems(calls[0].items, calls[0].program, [], index + 1);
      LinesWithinAll(calls[1..], mid);
      WithinJoin(LinesOfCall(calls[0], index), LinesOfAll(calls[1..], mid), index, mid, index + |PrintAll(calls)|);
    }
  }

  /** A line is picked exactly when its own name is the target. */
  lemma {:induction false} PickedHas(lines: seq<DataLine>, target: string, written: bool, from: nat, to: nat, d: DataLine)
    requires Within(lines, from, to)
    ensures forall e <- Picked(lines, target, written) :: from <= e.index < to
    ensures d in lines ==> (EventOf(d) in Picked(lines, target, written) <==> (if written then d.owner else d.reader) == target)
    decreases |lines|
  {
    if lines != [] {
      var rest := lines[1..];
      assert Within(rest, lines[0].index + 1, to) by {
        forall e | e in rest ensures lines[0].index + 1 <= e.index < to {
          var i :| 0 <= i < |rest| && rest[i] == e;
          assert lines[i + 1] == e;
        }
      }
      PickedHas(rest, target, written, lines[0].index + 1, to, d);
      assert lines[0] in lines && lines == [lines[0]] + rest;
    }
  }

  lemma {:induction false} PickedAlike(lines: seq<DataLine>, target: string)
    requires forall d <- lines :: !Lost(d, target) && !Forged(d, target)
    ensures Picked(lines, target, false) == Picked(lines, target, true)
  {
    if lines != [] {
      assert lines[0] in lines && forall d <- lines[1..] :: d in lines;
      PickedAlike(lines[1..], target);
    }
  }

  /**
   * For every transaction the runtime can print, whatever its programs log: the machine returns exactly the target's
   * own data lines, in order and with original indexes, if and only if every data line is read under the target's name
   * exactly when a frame of the target wrote it. A wrong line is either lost or forged, and each kind is exactly
   * described by the names open at that line.
   */
  lemma AttributionExactly(calls: seq<Call>, target: string)
    requires PrintableAll(calls)
    ensures var result, expected := Run(State([], []), 0, PrintAll(calls), target).events, ExpectedAll(calls, target, 0);
      && (result == expected <==> forall d <- LinesOfAll(calls, 0) :: !Lost(d, target) && !Forged(d, target))
      && (forall d <- LinesOfAll(calls, 0) :: Lost(d, target) <==> EventOf(d) in expected && EventOf(d) !in result)
      && (forall d <- LinesOfAll(calls, 0) :: Forged(d, target) <==> EventOf(d) in result && EventOf(d) !in expected)
  {
    hide PrintableAll, Run, PrintAll, LinesOfAll, ExpectedAll, Picked, Within, EventOf;
    var lines := LinesOfAll(calls, 0);
    RunAll(State([], []), 0, calls, target);
    WrittenAll(calls, target, 0);
    LinesWithinAll(calls, 0);
    assert [] + Picked(lines, target, false) == Picked(lines, target, false);
    forall d | d in lines
      ensures d.owner == target <==> EventOf(d) in Picked(lines, target, true)
      ensures d.reader == target <==> EventOf(d) in Picked(lines, target, false)
    {
      PickedHas(lines, target, true, 0, |PrintAll(calls)|, d);
      PickedHas(lines, target, false, 0, |PrintAll(calls)|, d);
    }
    if forall d <- lines :: !Lost(d, target) && !Forged(d, target) {
      PickedAlike(lines, target);
    }
  }

  // ------------------------------------------------------------------- when texts are harmless

  /** No text line in the tree imitates an invocation. */
  predicate PlainItem(item: Item)
    decreases item
  {
    match item
    case Log(text) => FakeFrame(text).None?
    case Sub(call) => PlainCall(call)
    case _ => true
  }

  predicate PlainItems(items: seq<Item>)
    decreases items
  {
    items == [] || (PlainItem(items[0]) && PlainItems(items[1..]))
  }

  predicate PlainCall(c: Call)
    decreases c
  {
    PlainItems(c.items)
  }

  /** Every line is read under the name of the program that wrote it. */
  ghost predicate Faithful(lines: seq<DataLine>) {
    forall d <- lines :: d.reader == d.owner
  }

  lemma PlainItemFaithful(item: Item, owner: string, index: nat)
    requires PlainItem(item)
    ensures OpenAfterItem(item, []) == [] && Faithful(LinesOfItem(item, owner, [], index))
    decreases item
  {
    if item.Sub? { PlainItemsFaithful(item.call.items, item.call.program, index + 1); }
  }

  lemma PlainItemsFaithful(items: seq<Item>, owner: string, index: nat)
    requires PlainItems(items)
    ensures OpenAfter(items, []) == [] && Faithful(LinesOfItems(items, owner, [], index))
    decreases items
  {
    hide PlainItem, OpenAfterItem, LinesOfItem, PrintItem;
    if items != [] {
      PlainItemFaithful(items[0], owner, index);
      PlainItemsFaithful(items[1..], owner, index + |PrintItem(items[0])|);
    }
  }

  lemma {:induction false} PlainAllFaithful(calls: seq<Call>, index: nat)
    requires forall c <- calls :: PlainCall(c)
    ensures Faithful(LinesOfAll(calls, index))
  {
    hide PlainItems, LinesOfItems, PrintCall;
    if calls != [] {
      assert calls[0] in calls && forall c <- calls[1..] :: c in calls;
      PlainItemsFaithful(calls[0].items, calls[0].program, index + 1);
      PlainAllFaithful(calls[1..], index + |PrintCall(calls[0])|);
    }
  }

  /** In particular attribution is exact whenever no text line contains the invocation marker. */
  lemma PlainLogsAreExact(calls: seq<Call>, target: string)
    requires PrintableAll(calls)
    requires forall c <- calls :: PlainCall(c)
    ensures Run(State([], []), 0, PrintAll(calls), target).events == ExpectedAll(calls, target, 0)
  {
    hide PrintableAll, PlainCall, Run, PrintAll, ExpectedAll, LinesOfAll;
    PlainAllFaithful(calls, 0);
    AttributionExactly(calls, target);
  }

  /** No text line in the tree reads as the end of a frame. */
  predicate SilentItem(item: Item)
    decreases item
  {
    match item
    case Log(text) => FakeFrame(text).Some? || ClosedName(text).None?
    case Sub(call) => SilentCall(call)
    case _ => true
  }

  predicate SilentItems(items: seq<Item>)
    decreases items
  {
    items == [] || (SilentItem(items[0]) && SilentItems(items[1..]))
  }

  predicate SilentCall(c: Call)
    decreases c
  {
    SilentItems(c.items)
  }

  /** The innermost open name is an imitation, which no program is called. */
  predicate Masked(open: seq<string>) {
    open != [] ==> !KeyText(open[|open| - 1])
  }

  /** A line is read under its own program's name or under no program's. */
  ghost predicate NotForged(lines: seq<DataLine>) {
    forall d <- lines :: d.reader != d.owner ==> !KeyText(d.reader)
  }

  lemma SilentItemMasks(item: Item, owner: string, open: seq<string>, index: nat)
    requires SilentItem(item) && PrintableItem(item) && Masked(open)
    ensures Masked(OpenAfterItem(item, open)) && NotForged(LinesOfItem(item, owner, open, index))
    ensures OpenAfterItem(item, open) == [] <==> open == [] && PlainItem(item)
    decreases item
  {
    match item {
      case Log(text) => LogLineParses(text);
      case Sub(call) => SilentItemsMask(call.items, call.program, [], index + 1);
      case _ =>
    }
  }

  lemma SilentItemsMask(items: seq<Item>, owner: string, open: seq<string>, index: nat)
    requires SilentItems(items) && PrintableItems(items) && Masked(open)
    ensures Masked(OpenAfter(items, open)) && NotForged(LinesOfItems(items, owner, open, index))
    ensures OpenAfter(items, open) == [] <==> open == [] && PlainItems(items)
    decreases items
  {
    hide SilentItem, PrintableItem, PlainItem, OpenAfterItem, LinesOfItem, PrintItem, Masked;
    if items != [] {
      SilentItemMasks(items[0], owner, open, index);
      SilentItemsMask(items[1..], owner, OpenAfterItem(items[0], open), index + |PrintItem(items[0])|);
    }
  }

  /** Only a text that closes a name can forge: otherwise a wrong line is always lost, never given to the target. */
  lemma {:induction false} SilentTextsNeverForge(calls: seq<Call>, target: string, index: nat)
    requires PrintableAll(calls) && KeyText(target)
    requires forall c <- calls :: SilentCall(c)
    ensures forall d <- LinesOfAll(calls, index) :: !Forged(d, target)
  {
    hide SilentItems, PrintableItems, LinesOfItems, PrintCall, KeyText;
    if calls != [] {
      assert calls[0] in calls && forall c <- calls[1..] :: c in calls;
      SilentItemsMask(calls[0].items, calls[0].program, [], index + 1);
      SilentTextsNeverForge(calls[1..], target, index + |PrintCall(calls[0])|);
    }
  }

  // ------------------------------------------------------------------------ witnesses

  lemma OneItem(item: Item, owner: string, open: seq<string>, target: string, index: nat)
    ensures PrintItems([item]) == PrintItem(item) && PrintableItems([item]) == PrintableItem(item) && PlainItems([item]) == PlainItem(item)
    ensures OpenAfter([item], open) == OpenAfterItem(item, open)
    ensures LinesOfItems([item], owner, open, index) == LinesOfItem(item, owner, open, index)
    ensures ExpectedItems([item], owner, target, index) == ExpectedItem(item, owner, target, index)
  {
    hide PrintItem, PrintableItem, PlainItem, OpenAfterItem, LinesOfItem, ExpectedItem;
    assert [item][1..] == [];
  }

  lemma LogThenData(text: string, payload: string, owner: string, open: seq<string>, target: string, index: nat)
    ensures var items := [Log(text), Data(payload)];
      && LinesOfItems(items, owner, open, index) == [DataLine(index + 1, payload, owner, Reader(owner, OpenAfterText(text, open)))]
      && ExpectedItems(items, owner, target, index) == (if owner == target then [Event(index + 1, payload)] else [])
      && ('[' !in payload ==> PrintableItems(items))
  {
    hide OpenAfterText, Reader;
    var items := [Log(text), Data(payload)];
    assert items[1..] == [Data(payload)] && items[1..][1..] == [];
    var open' := OpenAfterItem(items[0], open);
    assert LinesOfItems(items[1..], owner, open', index + 1) == LinesOfItem(Data(payload), owner, open', index + 1);
    assert ExpectedItems(items[1..], owner, target, index + 1) == ExpectedItem(Data(payload), owner, target, index + 1);
    assert '[' !in payload ==> PrintableItems(items[1..]);
  }

  /** A transaction of one call. */
  lemma OneCall(c: Call, target: string)
    requires PrintableCall(c)
    ensures LinesOfAll([c], 0) == LinesOfItems(c.items, c.program, [], 1)
    ensures ExpectedAll([c], target, 0) == ExpectedItems(c.items, c.program, target, 1)
    ensures PrintableAll([c])
    ensures Run(State([], []), 0, PrintAll([c]), target).events == Picked(LinesOfItems(c.items, c.program, [], 1), target, false)
  {
    hide LinesOfItems, ExpectedItems, PrintCall, Run, Picked, PrintableCall;
    assert [c][1..] == [];
    assert LinesOfAll([c], 0) == LinesOfItems(c.items, c.program, [], 1) + [];
    RunAll(State([], []), 0, [c], target);
    assert [] + Picked(LinesOfAll([c], 0), target, false) == Picked(LinesOfAll([c], 0), target, false);
  }

  /** A single frame that logs the text and then emits: the event is found exactly when the text lacks the marker. */
  lemma ImitationHidesEvents(program: string, text: string, payload: string)
    requires KeyText(program) && '[' !in payload
    ensures var calls := [Call(program, "1]", [Log(text), Data(payload)], Succeeded)];
      Run(State([], []), 0, PrintAll(calls), program).events == ExpectedAll(calls, program, 0) <==> FakeFrame(text).None?
  {
    LogLineParses(text);
    assert FakeFrame(text).Some? ==> FakeFrame(text).value != program;
    hide KeyText, ClosedName, FakeFrame, Run, PrintAll, ExpectedAll, LinesOfItems, PrintableItems, LinesOfAll, ExpectedItems;
    var c := Call(program, "1]", [Log(text), Data(payload)], Succeeded);
    LogThenData(text, payload, program, [], program, 1);
    OneCall(c, program);
    PickedOne(DataLine(2, payload, program, Reader(program, OpenAfterText(text, []))), program, false);
  }

  const OPENING: string := "x invoke [1]"
  const CLOSING: string := "x success"
  const IMITATION: string := "log: x"

  /** "x invoke [1]" opens the name "log: x", and "x success" closes it. */
  lemma OpeningAndClosing()
    ensures OpenAfterText(OPENING, []) == [IMITATION]
    ensures forall open :: OpenAfterText(CLOSING, open + [IMITATION]) == open
  {
    OpeningText();
    ClosingText();
    hide FakeFrame, ClosedName;
    forall open: seq<string> ensures OpenAfterText(CLOSING, open + [IMITATION]) == open {
      assert (open + [IMITATION])[..|open|] == open;
    }
  }

  lemma OpeningText()
    ensures FakeFrame(OPENING) == Some(IMITATION)
  {
    hide BeforeFirst;
    var line := LOG_PREFIX + OPENING;
    assert line == IMITATION + (INVOKE_MARKER + "1]");
    assert line[6..] == INVOKE_MARKER + "1]" && line[..6] == IMITATION;
    forall i | 0 <= i < 6 ensures !StartsWith(line[i..], INVOKE_MARKER) {
      assert line[i..][1] == line[i + 1] && INVOKE_MARKER[1] == 'i';
    }
    FirstAt(line, INVOKE_MARKER, 6);
  }

  lemma ClosingText()
    ensures FakeFrame(CLOSING).None? && ClosedName(CLOSING) == Some(IMITATION)
  {
    hide BeforeFirst;
    var line := LOG_PREFIX + CLOSING;
    assert line == IMITATION + SUCCESS_SUFFIX;
    assert '[' !in line;
    NoBracketNoMarker(line);
    PrefixedLine(line);
    assert line[|line| - 8..] == SUCCESS_SUFFIX && line[..|line| - 8] == IMITATION;
  }

  /** The target logs the opening text, and its caller then logs the closing one and writes data. */
  function ForgingCall(caller: string, target: string, payload: string): Call {
    Call(caller, "1]", [Sub(Call(target, "2]", [Log(OPENING)], Succeeded)), Log(CLOSING), Data(payload)], Succeeded)
  }

  /** The call whose only line opens an imitation stays open beneath it. */
  lemma StuckFrame(target: string, index: nat)
    requires KeyText(target)
    ensures var c := Call(target, "2]", [Log(OPENING)], Succeeded);
      && PrintableCall(c)
      && Residue(c) == [target, IMITATION]
      && |PrintCall(c)| == 3
      && LinesOfCall(c, index) == [] && ExpectedCall(c, target, index) == []
  {
    OpeningAndClosing();
    OneItem(Log(OPENING), target, [], target, index + 1);
    assert IMITATION[3] == ':' && IMITATION[3] in IMITATION;
    assert target != IMITATION;
    hide OpenAfterText, KeyText, InvokeLine, ExitLine, OpenAfter, PrintItems, LinesOfItems, ExpectedItems, PrintableItems;
  }

  /** For every caller, target and payload, the caller's data is read as the target's only event. */
  lemma ClosingTextForgesEvents(caller: string, target: string, payload: string)
    requires KeyText(caller) && KeyText(target) && caller != target && '[' !in payload
    ensures var calls := [ForgingCall(caller, target, payload)];
      && PrintableAll(calls)
      && ExpectedAll(calls, target, 0) == []
      && Run(State([], []), 0, PrintAll(calls), target).events == [Event(5, payload)]
  {
    hide KeyText, OpenAfterText, FakeFrame, PrintCall, Residue, ExpectedCall, LinesOfCall, Run, PrintAll, ExpectedAll, LinesOfAll, Picked;
    OpeningAndClosing();
    StuckFrame(target, 1);
    var c := ForgingCall(caller, target, payload);
    var stuck, d := [target] + [IMITATION], DataLine(5, payload, caller, target);
    assert OpenAfterText(CLOSING, stuck) == [target];
    assert c.items[1..] == [Log(CLOSING), Data(payload)];
    assert OpenAfterItem(c.items[0], []) == stuck;
    LogThenData(CLOSING, payload, caller, stuck, target, 4);
    assert LinesOfItems(c.items, caller, [], 1) == [d];
    assert ExpectedItems(c.items, caller, target, 1) == [];
    assert PrintableItems(c.items);
    assert PrintableCall(c) by { StuckFrame(target, 1); }
    OneCall(c, target);
    PickedOne(d, target, false);
  }

  /** A frame that closes its own imitation is read exactly. */
  lemma ClosedImitationIsHarmless(program: string, payload: string)
    requires KeyText(program) && '[' !in payload
    ensures var calls := [Call(program, "1]", [Log(OPENING), Log(CLOSING), Data(payload)], Succeeded)];
      && !PlainCall(calls[0])
      && Run(State([], []), 0, PrintAll(calls), program).events == ExpectedAll(calls, program, 0) == [Event(3, payload)]
  {
    hide KeyText, FakeFrame, OpenAfterText, Run, PrintAll, ExpectedAll, LinesOfAll, Picked, PrintableItems, LinesOfItems, ExpectedItems;
    OpeningAndClosing();
    var c := Call(program, "1]", [Log(OPENING), Log(CLOSING), Data(payload)], Succeeded);
    var rest, d := [Log(CLOSING), Data(payload)], DataLine(3, payload, program, program);
    assert OpenAfterText(CLOSING, [] + [IMITATION]) == [] && [] + [IMITATION] == [IMITATION];
    LogThenData(CLOSING, payload, program, [IMITATION], program, 2);
    LogFirst(OPENING, rest, program, [], program, 1);
    OpeningText();
    assert [Log(OPENING)] + rest == c.items;
    OneCall(c, program);
    PickedOne(d, program, false);
  }

  lemma LogFirst(text: string, rest: seq<Item>, owner: string, open: seq<string>, target: string, index: nat)
    ensures var items := [Log(text)] + rest;
      && LinesOfItems(items, owner, open, index) == LinesOfItems(rest, owner, OpenAfterText(text, open), index + 1)
      && ExpectedItems(items, owner, target, index) == ExpectedItems(rest, owner, target, index + 1)
      && (PrintableItems(rest) ==> PrintableItems(items))
      && (FakeFrame(text).Some? ==> !PlainItems(items))
  {
    hide FakeFrame, OpenAfterText;
    assert ([Log(text)] + rest)[1..] == rest;
  }
}
