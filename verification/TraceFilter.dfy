/** The start/end marker filter between the parser and the reconstructor (trace_filter.cpp). */
module TraceFilter {
  import opened Texts
  import opened PerfEvent

  datatype Config = Config(startSymbol: Text, endSymbol: Text, multiSlice: bool)

  datatype Mode = Waiting | Recording | Done

  datatype FilterState = FilterState(mode: Mode, sliceCount: nat, sawStart: bool)

  predicate SymbolMatches(br: BranchData, target: Text) {
    target != [] && (target <= br.src.symbol || target <= br.dst.symbol)
  }

  function Initial(cfg: Config): FilterState {
    FilterState(if cfg.startSymbol == [] then Recording else Waiting, 0, false)
  }

  /** The state after an event, and whether the event passes. */
  function Step(cfg: Config, f: FilterState, e: Event): (FilterState, bool) {
    if !(e.Ok? && e.data.Branch?) then (f, f.mode == Recording)
    else
      match f.mode
      case Waiting =>
        if SymbolMatches(e.data.branch, cfg.startSymbol) then (f.(mode := Recording, sawStart := true), true)
          else (f, false)
      case Recording =>
        if cfg.endSymbol != [] && SymbolMatches(e.data.branch, cfg.endSymbol) then
          var next := if cfg.multiSlice then (if cfg.startSymbol == [] then Recording else Waiting) else Done;
          (f.(mode := next, sliceCount := f.sliceCount + 1), true)
        else (f, true)
      case Done => (f, false)
  }

  /** A start symbol is set and no branch has matched it. */
  predicate StartMissing(cfg: Config, f: FilterState) {
    cfg.startSymbol != [] && !f.sawStart
  }

  /** The state after a run of events. */
  function After(cfg: Config, events: seq<Event>): FilterState {
    if events == [] then Initial(cfg)
    else Step(cfg, After(cfg, events[..|events| - 1]), events[|events| - 1]).0
  }

  predicate Passes(cfg: Config, events: seq<Event>, k: nat)
    requires k < |events|
  {
    Step(cfg, After(cfg, events[..k]), events[k]).1
  }

  /** The events that pass, in order. */
  function Passed(cfg: Config, events: seq<Event>): seq<Event> {
    if events == [] then []
    else
      var n := |events| - 1;
      Passed(cfg, events[..n]) + (if Step(cfg, After(cfg, events[..n]), events[n]).1 then [events[n]] else [])
  }

  class TraceFilter {
    const config: Config
    var mode: Mode
    var sliceCount: nat
    var sawStart: bool

    function State(): FilterState
      reads this
    {
      FilterState(mode, sliceCount, sawStart)
    }

    constructor (config: Config)
      ensures this.config == config && State() == Initial(config)
    {
      this.config := config;
      mode := if config.startSymbol == [] then Recording else Waiting;
      sliceCount, sawStart := 0, false;
    }

    method ShouldPass(event: Event) returns (pass: bool)
      modifies this
      ensures (State(), pass) == Step(config, old(State()), event)
    {
      if !event.Ok? {
        return mode == Recording;
      }
      if !event.data.Branch? {
        return mode == Recording;
      }
      var br := event.data.branch;
      match mode {
        case Waiting =>
          if SymbolMatches(br, config.startSymbol) {
            sawStart := true;
            mode := Recording;
            return true;
          }
          return false;
        case Recording =>
          if config.endSymbol != [] && SymbolMatches(br, config.endSymbol) {
            sliceCount := sliceCount + 1;
            if config.multiSlice {
              mode := if config.startSymbol == [] then Recording else Waiting;
            } else {
              mode := Done;
            }
            return true;
          }
          return true;
        case Done =>
          return false;
      }
    }

    method SliceCount() returns (count: nat)
      ensures count == State().sliceCount
    {
      count := sliceCount;
    }

    method StartSymbolMissing() returns (missing: bool)
      ensures missing == StartMissing(config, State())
    {
      missing := config.startSymbol != [] && !sawStart;
    }
  }

  // ----- Markers ------------------------------------------------------------------------------

  /** `text` is the first characters of `symbol`. */
  predicate Begins(symbol: Text, text: Text) {
    |text| <= |symbol| && forall i :: 0 <= i < |text| ==> symbol[i] == text[i]
  }

  /** The event bears the marker: it is a branch, and the symbol it comes from or the one it goes to
      begins with the marker's text. No event bears an empty marker. */
  predicate Marks(e: Event, text: Text) {
    match e
    case Ok(_, _, _, Branch(BranchData(_, _, _, src, dst))) =>
      text != [] && (Begins(src.symbol, text) || Begins(dst.symbol, text))
    case _ => false
  }

  /** What one event does, in terms of the markers it bears. */
  lemma {:induction false} StepByMarks(cfg: Config, f: FilterState, e: Event)
    ensures f.mode == Waiting && !Marks(e, cfg.startSymbol) ==> Step(cfg, f, e) == (f, false)
    ensures f.mode == Waiting && Marks(e, cfg.startSymbol) ==>
              Step(cfg, f, e) == (f.(mode := Recording, sawStart := true), true)
    ensures f.mode == Recording && !Marks(e, cfg.endSymbol) ==> Step(cfg, f, e) == (f, true)
    ensures f.mode == Recording && Marks(e, cfg.endSymbol) ==>
              Step(cfg, f, e).1 && Step(cfg, f, e).0.sliceCount == f.sliceCount + 1 &&
              Step(cfg, f, e).0.sawStart == f.sawStart &&
              Step(cfg, f, e).0.mode ==
              if !cfg.multiSlice then Done else if cfg.startSymbol == [] then Recording else Waiting
    ensures f.mode == Done ==> Step(cfg, f, e) == (f, false)
  {
    if e.Ok? && e.data.Branch? {
      var br := e.data.branch;
      PrefixBegins(br.src.symbol, cfg.startSymbol);
      PrefixBegins(br.dst.symbol, cfg.startSymbol);
      PrefixBegins(br.src.symbol, cfg.endSymbol);
      PrefixBegins(br.dst.symbol, cfg.endSymbol);
    }
  }

  lemma {:induction false} PrefixBegins(symbol: Text, text: Text)
    ensures text <= symbol <==> Begins(symbol, text)
  {
  }

  // ----- Slices -------------------------------------------------------------------------------

  /** The first event from `i` on that bears the marker, or the end of the run. */
  function FirstMark(events: seq<Event>, target: Text, i: nat): (k: nat)
    requires i <= |events|
    ensures i <= k <= |events|
    ensures k < |events| ==> Marks(events[k], target)
    ensures forall j :: i <= j < k ==> !Marks(events[j], target)
    decreases |events| - i
  {
    if i == |events| || Marks(events[i], target) then i else FirstMark(events, target, i + 1)
  }

  /** A block of consecutive events; `closed` if it ends with an end marker. */
  datatype Block = Block(from: nat, to: nat, closed: bool)

  /** The blocks marked out from `i` on: each opens at the next start marker and closes with the first
      end marker after it; without several slices there is at most one. */
  function Blocks(cfg: Config, events: seq<Event>, i: nat): seq<Block>
    requires i <= |events|
    decreases |events| - i
  {
    var s := FirstMark(events, cfg.startSymbol, i);
    if s == |events| then []
    else
      var e := FirstMark(events, cfg.endSymbol, s + 1);
      if e == |events| then [Block(s, |events|, false)]
      else [Block(s, e + 1, true)] + (if cfg.multiSlice then Blocks(cfg, events, e + 1) else [])
  }

  predicate InSome(blocks: seq<Block>, k: int) {
    exists b :: 0 <= b < |blocks| && blocks[b].from <= k < blocks[b].to
  }

  function CountClosed(blocks: seq<Block>): nat {
    if blocks == [] then 0 else (if blocks[0].closed then 1 else 0) + CountClosed(blocks[1..])
  }

  /** Blocks are non-empty, in order and apart from each other. */
  predicate Apart(blocks: seq<Block>, from: nat, to: nat) {
    (forall b :: 0 <= b < |blocks| ==> from <= blocks[b].from < blocks[b].to <= to) &&
    forall a, b :: 0 <= a < b < |blocks| ==> blocks[a].to <= blocks[b].from
  }

  /** The block opens with a start marker; inside it there is no end marker but the one that closes it,
      and an open block goes on to the end. */
  predicate BlockMarked(cfg: Config, events: seq<Event>, b: Block) {
    b.from < b.to <= |events| && Marks(events[b.from], cfg.startSymbol) &&
    (if b.closed then b.from < b.to - 1 && Marks(events[b.to - 1], cfg.endSymbol) else b.to == |events|) &&
    forall k :: b.from < k < (if b.closed then b.to - 1 else b.to) ==> !Marks(events[k], cfg.endSymbol)
  }

  /** Every block is marked; with several slices no event outside the blocks bears a start marker, and
      without, none before the first block does. */
  predicate Marked(cfg: Config, events: seq<Event>, i: nat, blocks: seq<Block>) {
    (forall b :: 0 <= b < |blocks| ==> BlockMarked(cfg, events, blocks[b])) &&
    forall k :: i <= k < |events| && !InSome(blocks, k) && (cfg.multiSlice || blocks == [] || k < blocks[0].from) ==>
      !Marks(events[k], cfg.startSymbol)
  }

  lemma {:induction false} FirstMarked(cfg: Config, events: seq<Event>, i: nat, b: Block, rest: seq<Block>)
    requires i <= b.from < b.to && BlockMarked(cfg, events, b)
    requires forall k :: i <= k < b.from ==> !Marks(events[k], cfg.startSymbol)
    requires if cfg.multiSlice then Marked(cfg, events, b.to, rest) else rest == []
    ensures Marked(cfg, events, i, [b] + rest)
  {
    hide Marks, InSome, BlockMarked;
    SplitBlocks(b, rest);
    var all := [b] + rest;
    forall k | 0 <= k < |all| ensures BlockMarked(cfg, events, all[k]) {
      assert k > 0 ==> all[k] == rest[k - 1];
    }
  }

  lemma {:induction false} BlocksMarked(cfg: Config, events: seq<Event>, i: nat)
    requires i <= |events|
    ensures Marked(cfg, events, i, Blocks(cfg, events, i))
    decreases |events| - i
  {
    hide Marks, Marked, InSome;
    var s := FirstMark(events, cfg.startSymbol, i);
    if s == |events| {
      NoneMarked(cfg, events, i);
    } else {
      var e := FirstMark(events, cfg.endSymbol, s + 1);
      if e == |events| {
        NoneMarked(cfg, events, e);
        FirstMarked(cfg, events, i, Block(s, e, false), []);
        assert [Block(s, e, false)] + [] == [Block(s, e, false)];
      } else {
        if cfg.multiSlice {
          BlocksMarked(cfg, events, e + 1);
        }
        FirstMarked(cfg, events, i, Block(s, e + 1, true), if cfg.multiSlice then Blocks(cfg, events, e + 1) else []);
      }
    }
  }

  lemma {:induction false} NoneMarked(cfg: Config, events: seq<Event>, i: nat)
    requires forall k :: i <= k < |events| ==> !Marks(events[k], cfg.startSymbol)
    ensures Marked(cfg, events, i, [])
  {
  }

  lemma {:induction false} AfterNext(cfg: Config, events: seq<Event>, k: nat)
    requires k < |events|
    ensures After(cfg, events[..k + 1]) == Step(cfg, After(cfg, events[..k]), events[k]).0
  {
    assert events[..k + 1][..k] == events[..k];
  }

  /** Nothing passes, and nothing changes, until a start marker. */
  lemma {:induction false} WaitsUntil(cfg: Config, events: seq<Event>, i: nat, k: nat)
    requires i <= k <= |events| && After(cfg, events[..i]).mode == Waiting
    requires forall j :: i <= j < k ==> !Marks(events[j], cfg.startSymbol)
    ensures After(cfg, events[..k]) == After(cfg, events[..i])
    decreases k
  {
    hide Step, Marks;
    if i < k {
      WaitsUntil(cfg, events, i, k - 1);
      AfterNext(cfg, events, k - 1);
      StepByMarks(cfg, After(cfg, events[..i]), events[k - 1]);
    }
  }

  /** Everything passes, and nothing changes, until an end marker. */
  lemma {:induction false} RecordsUntil(cfg: Config, events: seq<Event>, i: nat, k: nat)
    requires i <= k <= |events| && After(cfg, events[..i]).mode == Recording
    requires forall j :: i <= j < k ==> !Marks(events[j], cfg.endSymbol)
    ensures After(cfg, events[..k]) == After(cfg, events[..i])
    decreases k
  {
    hide Step, Marks;
    if i < k {
      RecordsUntil(cfg, events, i, k - 1);
      AfterNext(cfg, events, k - 1);
      StepByMarks(cfg, After(cfg, events[..i]), events[k - 1]);
    }
  }

  lemma {:induction false} DoneForGood(cfg: Config, events: seq<Event>, i: nat, k: nat)
    requires i <= k <= |events| && After(cfg, events[..i]).mode == Done
    ensures After(cfg, events[..k]) == After(cfg, events[..i])
    decreases k
  {
    if i < k {
      DoneForGood(cfg, events, i, k - 1);
      AfterNext(cfg, events, k - 1);
    }
  }

  /** From `i` on, exactly the events in the blocks pass. */
  predicate PassExactly(cfg: Config, events: seq<Event>, i: nat, blocks: seq<Block>) {
    forall k :: i <= k < |events| ==> (Passes(cfg, events, k) <==> InSome(blocks, k))
  }

  /** The stretch before a slice: nothing passes. */
  lemma {:induction false} Before(cfg: Config, events: seq<Event>, i: nat, s: nat)
    requires i <= s <= |events| && After(cfg, events[..i]).mode == Waiting
    requires forall j :: i <= j < s ==> !Marks(events[j], cfg.startSymbol)
    ensures forall k :: i <= k < s ==> !Passes(cfg, events, k)
    ensures After(cfg, events[..s]) == After(cfg, events[..i])
  {
    hide After;
    hide Step, Marks;
    forall k | i <= k <= s ensures After(cfg, events[..k]) == After(cfg, events[..i]) {
      WaitsUntil(cfg, events, i, k);
    }
    forall k | i <= k < s ensures !Passes(cfg, events, k) {
      StepByMarks(cfg, After(cfg, events[..i]), events[k]);
    }
  }

  /** The event that opens a slice. */
  lemma {:induction false} Opens(cfg: Config, events: seq<Event>, s: nat)
    requires s < |events| && After(cfg, events[..s]).mode == Waiting && Marks(events[s], cfg.startSymbol)
    ensures Passes(cfg, events, s)
    ensures After(cfg, events[..s + 1]) == After(cfg, events[..s]).(mode := Recording, sawStart := true)
  {
    hide After, Step, Marks;
    AfterNext(cfg, events, s);
    StepByMarks(cfg, After(cfg, events[..s]), events[s]);
  }

  /** The inside of a slice, its end marker included. */
  lemma {:induction false} Inside(cfg: Config, events: seq<Event>, i: nat, e: nat)
    requires i <= e <= |events| && After(cfg, events[..i]).mode == Recording
    requires forall j :: i <= j < e ==> !Marks(events[j], cfg.endSymbol)
    ensures forall k :: i <= k < |events| && k <= e ==> Passes(cfg, events, k)
    ensures After(cfg, events[..e]) == After(cfg, events[..i])
  {
    hide After;
    hide Step, Marks;
    forall k | i <= k <= e ensures After(cfg, events[..k]) == After(cfg, events[..i]) {
      RecordsUntil(cfg, events, i, k);
    }
    forall k | i <= k < |events| && k <= e ensures Passes(cfg, events, k) {
      StepByMarks(cfg, After(cfg, events[..i]), events[k]);
    }
  }

  lemma {:induction false} Closes(cfg: Config, events: seq<Event>, e: nat)
    requires e < |events| && After(cfg, events[..e]).mode == Recording && Marks(events[e], cfg.endSymbol)
    requires cfg.startSymbol != []
    ensures After(cfg, events[..e + 1]) ==
            After(cfg, events[..e]).(mode := if cfg.multiSlice then Waiting else Done,
                                     sliceCount := After(cfg, events[..e]).sliceCount + 1)
  {
    hide After, Step, Marks;
    AfterNext(cfg, events, e);
    StepByMarks(cfg, After(cfg, events[..e]), events[e]);
  }

  lemma {:induction false} Afterwards(cfg: Config, events: seq<Event>, i: nat)
    requires i <= |events| && After(cfg, events[..i]).mode == Done
    ensures forall k :: i <= k < |events| ==> !Passes(cfg, events, k)
    ensures After(cfg, events) == After(cfg, events[..i])
  {
    hide After;
    assert events[..|events|] == events;
    forall k | i <= k <= |events| ensures After(cfg, events[..k]) == After(cfg, events[..i]) {
      DoneForGood(cfg, events, i, k);
    }
  }

  /** A slice and what follows it. */
  lemma {:induction false} ThenMore(cfg: Config, events: seq<Event>, i: nat, b: Block, rest: seq<Block>)
    requires i <= b.from < b.to <= |events|
    requires forall k :: i <= k < b.from ==> !Passes(cfg, events, k)
    requires forall k :: b.from <= k < b.to ==> Passes(cfg, events, k)
    requires PassExactly(cfg, events, b.to, rest) && Apart(rest, b.to, |events|)
    ensures PassExactly(cfg, events, i, [b] + rest) && Apart([b] + rest, i, |events|)
    ensures CountClosed([b] + rest) == (if b.closed then 1 else 0) + CountClosed(rest)
  {
    hide Passes, InSome;
    SplitBlocks(b, rest);
    NotBefore(rest, b.to, |events|);
    assert ([b] + rest)[1..] == rest;
    var all := [b] + rest;
    assert forall j :: 0 < j < |all| ==> all[j] == rest[j - 1];
  }

  lemma {:induction false} NoMore(cfg: Config, events: seq<Event>, i: nat)
    requires i <= |events| && forall k :: i <= k < |events| ==> !Passes(cfg, events, k)
    ensures PassExactly(cfg, events, i, []) && Apart([], i, |events|) && CountClosed([]) == 0
  {
    hide Passes;
  }

  lemma {:induction false} SlicesFrom(cfg: Config, events: seq<Event>, i: nat)
    requires i <= |events| && After(cfg, events[..i]).mode == Waiting && cfg.startSymbol != []
    ensures var blocks := Blocks(cfg, events, i);
            PassExactly(cfg, events, i, blocks) && Apart(blocks, i, |events|) &&
            After(cfg, events).sliceCount == After(cfg, events[..i]).sliceCount + CountClosed(blocks) &&
            (After(cfg, events).sawStart <==> After(cfg, events[..i]).sawStart || blocks != [])
    decreases |events| - i
  {
    hide After, Passes, InSome, Apart, PassExactly, CountClosed, Marks;
    var s := FirstMark(events, cfg.startSymbol, i);
    assert events[..|events|] == events;
    Before(cfg, events, i, s);
    if s == |events| {
      NoMore(cfg, events, i);
    } else {
      Opens(cfg, events, s);
      var e := FirstMark(events, cfg.endSymbol, s + 1);
      Inside(cfg, events, s + 1, e);
      if e == |events| {
        NoMore(cfg, events, e);
        ThenMore(cfg, events, i, Block(s, e, false), []);
        assert [Block(s, e, false)] + [] == [Block(s, e, false)];
      } else {
        Closes(cfg, events, e);
        var rest := if cfg.multiSlice then Blocks(cfg, events, e + 1) else [];
        if cfg.multiSlice {
          SlicesFrom(cfg, events, e + 1);
        } else {
          Afterwards(cfg, events, e + 1);
          NoMore(cfg, events, e + 1);
        }
        ThenMore(cfg, events, i, Block(s, e + 1, true), rest);
      }
    }
  }

  lemma {:induction false} NotBefore(blocks: seq<Block>, from: nat, to: nat)
    requires Apart(blocks, from, to)
    ensures forall k: int :: k < from ==> !InSome(blocks, k)
  {
  }

  lemma {:induction false} SplitBlocks(b: Block, rest: seq<Block>)
    ensures forall k: int :: InSome([b] + rest, k) <==> b.from <= k < b.to || InSome(rest, k)
  {
    var all := [b] + rest;
    forall k: int ensures InSome(all, k) <==> b.from <= k < b.to || InSome(rest, k) {
      assert all[0] == b;
      if InSome(rest, k) {
        var j :| 0 <= j < |rest| && rest[j].from <= k < rest[j].to;
        assert all[j + 1] == rest[j];
      }
      if InSome(all, k) {
        var j :| 0 <= j < |all| && all[j].from <= k < all[j].to;
        if j > 0 { assert rest[j - 1] == all[j]; }
      }
    }
  }

  // ----- Main results -----------------------------------------------------------------------

  /** With a start symbol, exactly the events of the marked blocks pass; the blocks are apart from each
      other, at most one without several slices; the slice count is that of the closed ones, and the
      start symbol is missing exactly if there is none. */
  lemma {:induction false} PassedSlices(cfg: Config, events: seq<Event>)
    requires cfg.startSymbol != []
    ensures var blocks := Blocks(cfg, events, 0);
            (forall k :: 0 <= k < |events| ==> (Passes(cfg, events, k) <==> InSome(blocks, k))) &&
            Apart(blocks, 0, |events|) && Marked(cfg, events, 0, blocks) && (!cfg.multiSlice ==> |blocks| <= 1) &&
            After(cfg, events).sliceCount == CountClosed(blocks) &&
            (StartMissing(cfg, After(cfg, events)) <==> blocks == [])
  {
    hide Marked;
    assert events[..0] == [];
    SlicesFrom(cfg, events, 0);
    BlocksMarked(cfg, events, 0);
  }

  /** Without a start symbol and with a single slice, everything up to and including the first end
      marker passes. */
  lemma {:induction false} PassedFromStart(cfg: Config, events: seq<Event>)
    requires cfg.startSymbol == [] && !cfg.multiSlice
    ensures var e := FirstMark(events, cfg.endSymbol, 0);
            (forall k :: 0 <= k < |events| ==> (Passes(cfg, events, k) <==> k <= e)) &&
            After(cfg, events).sliceCount == if e < |events| then 1 else 0
  {
    var e := FirstMark(events, cfg.endSymbol, 0);
    assert events[..0] == [] && events[..|events|] == events;
    forall k | 0 <= k <= e ensures After(cfg, events[..k]) == Initial(cfg) {
      RecordsUntil(cfg, events, 0, k);
    }
    hide Marks;
    if e < |events| {
      AfterNext(cfg, events, e);
      StepByMarks(cfg, After(cfg, events[..e]), events[e]);
      forall k | e < k <= |events| ensures After(cfg, events[..k]) == After(cfg, events[..e + 1]) {
        DoneForGood(cfg, events, e + 1, k);
      }
    }
  }

  function CountMarks(events: seq<Event>, target: Text): nat {
    if events == [] then 0
    else CountMarks(events[..|events| - 1], target) + (if Marks(events[|events| - 1], target) then 1 else 0)
  }

  /** Without a start symbol but with several slices, everything passes and end markers are counted. */
  lemma {:induction false} PassedAlways(cfg: Config, events: seq<Event>)
    requires cfg.startSymbol == [] && cfg.multiSlice
    ensures Passed(cfg, events) == events
    ensures After(cfg, events) == FilterState(Recording, CountMarks(events, cfg.endSymbol), false)
    decreases |events|
  {
    if events != [] {
      PassedAlways(cfg, events[..|events| - 1]);
      StepByMarks(cfg, After(cfg, events[..|events| - 1]), events[|events| - 1]);
    }
  }
}
