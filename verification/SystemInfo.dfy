/** System-info accessors: two lazily cached words behind sentinels, a generation byte classified from two
    reads of the first, and the classifiers of a board-version word. */
module SystemInfo {
  import opened Words

  const VERSION_UNKNOWN: u32 := 0x7fff_ffff
  const END_UNKNOWN: u32 := 0xffff_ffff

  type i8 = w: int | -0x80 <= w < 0x80
  const GENERATION_UNKNOWN: i8 := -1

  /** What the shared-context getter finds at one call: nothing, or an object with these two words. */
  datatype Context = Context(version: u32, copyEnd: u32)

  /** What reading the pin says: an error status, and a level. */
  datatype Pin = Pin(status: u32, level: u32)

  function High(word: u32): u32 {
    word / 0x1_0000
  }

  function Low(word: u32): u32 {
    word % 0x1_0000
  }

  // ---------------------------------------------------------------------------------------------
  // Classifiers
  // ---------------------------------------------------------------------------------------------

  function PinStatus(pin: Pin): u32 {
    if pin.status != 0 then 0 else if pin.level == 0 then 2 else 3
  }

  /** Codes whose status is the pin's. */
  predicate AsksPin(version: u32) {
    var code := High(version);
    1 <= code <= 12 || code == 19 || code == 21
  }

  function StorageStatus(version: u32, pin: Pin): u32 {
    var code := High(version);
    if AsksPin(version) then PinStatus(pin)
    else if code == 13 || 15 <= code <= 18 || code == 20 then 4
    else 0
  }

  /** `board_version_resource_class` */
  function ResourceClass(context: Context): u32 {
    match High(context.version)
    case 11 => 1
    case 19 => 3
    case 20 => 2
    case _ => 0
  }

  /** `board_version_is_11_19_or_20` */
  function IsResourceBoard(context: Context): u32 {
    var code := High(context.version);
    if code == 11 || code == 19 || code == 20 then 1 else 0
  }

  function Generation(high: u32, low: u32): i8 {
    if high == 0x13 && 0x10 <= low < 0x100 then 1 else 2
  }

  /** The two resource classifiers agree, and a nonzero class names its board code. */
  lemma ResourceClassifiersAgree(c: Context, d: Context)
    ensures IsResourceBoard(c) == 1 <==> ResourceClass(c) != 0
    ensures ResourceClass(c) != 0 ==> (ResourceClass(c) == ResourceClass(d) <==> High(c.version) == High(d.version))
  {
  }

  /** The storage status and the resource class of every board code. */
  lemma CodesOf(version: u32, copyEnd: u32, pin: Pin)
    ensures var code, status := version / 0x1_0000, StorageStatus(version, pin);
            var asks := code in {1, 2, 3, 4, 5, 6, 7, 8, 9, 10, 11, 12, 19, 21};
            && (status == 4 <==> code in {13, 15, 16, 17, 18, 20})
            && (status == 2 <==> asks && pin.status == 0 && pin.level == 0)
            && (status == 3 <==> asks && pin.status == 0 && pin.level != 0)
            && status in {0, 2, 3, 4}
    ensures var code, class_ := version / 0x1_0000, ResourceClass(Context(version, copyEnd));
            && (class_ == 1 <==> code == 11) && (class_ == 2 <==> code == 20) && (class_ == 3 <==> code == 19)
            && class_ <= 3
    ensures IsResourceBoard(Context(version, copyEnd)) == if version / 0x1_0000 in {11, 19, 20} then 1 else 0
  {
  }

  /** A board is generation 1 exactly for these version words, and generation 2 otherwise. */
  lemma GenerationOneExactlyWhen(version: u32)
    ensures Generation(High(version), Low(version)) == 1 <==> 0x13_0010 <= version <= 0x13_00ff
    ensures Generation(High(version), Low(version)) in {1, 2}
  {
  }

  /** On a board whose status is the pin's, the status is the promised 2 or 3 exactly when the pin read
      succeeds. */
  lemma PinStatusExactlyWhen(version: u32, pin: Pin)
    ensures AsksPin(version) ==> (StorageStatus(version, pin) in {2, 3} <==> pin.status == 0)
    ensures StorageStatus(version, pin) in {2, 3} <==> AsksPin(version) && pin.status == 0
  {
  }

  /** A failed read on the first of those boards. */
  lemma FailedPinReadAnswersZero(level: u32)
    ensures AsksPin(0x1_0000) && StorageStatus(0x1_0000, Pin(1, level)) == 0
  {
  }

  /** A generation-1 board is a resource board of class 3, with the storage status of the pin; and an
      unknown version classifies as generation 2 with storage status 0. */
  lemma GenerationOneBoards(version: u32, copyEnd: u32, pin: Pin)
    ensures Generation(High(version), Low(version)) == 1 ==>
              ResourceClass(Context(version, copyEnd)) == 3 && StorageStatus(version, pin) == PinStatus(pin)
    ensures Generation(High(VERSION_UNKNOWN), Low(version)) == 2 && StorageStatus(VERSION_UNKNOWN, pin) == 0
  {
  }

  // ---------------------------------------------------------------------------------------------
  // Caches
  // ---------------------------------------------------------------------------------------------

  datatype Caches = Caches(version: u32, copyEnd: u32, generation: i8)

  const INITIAL := Caches(VERSION_UNKNOWN, END_UNKNOWN, GENERATION_UNKNOWN)

  /** A cache word after one read through it. */
  function Refreshed(cache: u32, sentinel: u32, found: Option<u32>): u32 {
    if cache == sentinel && found.Some? then found.value else cache
  }

  function VersionOf(c: Option<Context>): Option<u32> {
    match c
    case None => None
    case Some(x) => Some(x.version)
  }

  function EndOf(c: Option<Context>): Option<u32> {
    match c
    case None => None
    case Some(x) => Some(x.copyEnd)
  }

  /** Calls, each with the contexts its getter calls find. */
  datatype Op =
    | BoardVersion(context: Option<Context>)
    | CopyEnd(context: Option<Context>)
    | BoardGeneration(first: Option<Context>, second: Option<Context>)
    | Storage(context: Option<Context>, pin: Pin)

  /** The version words a call asks the shared context for, were the version unknown. */
  function VersionReads(c: Caches, op: Op): seq<Option<u32>> {
    match op
    case BoardVersion(context) => [VersionOf(context)]
    case CopyEnd(_) => []
    case BoardGeneration(first, second) =>
      if c.generation == GENERATION_UNKNOWN then [VersionOf(first), VersionOf(second)] else []
    case Storage(context, _) => [VersionOf(context)]
  }

  function Step(c: Caches, op: Op): Caches {
    match op
    case BoardVersion(context) => c.(version := Refreshed(c.version, VERSION_UNKNOWN, VersionOf(context)))
    case CopyEnd(context) => c.(copyEnd := Refreshed(c.copyEnd, END_UNKNOWN, EndOf(context)))
    case BoardGeneration(first, second) =>
      if c.generation != GENERATION_UNKNOWN then c
      else
        var one := Refreshed(c.version, VERSION_UNKNOWN, VersionOf(first));
        var two := Refreshed(one, VERSION_UNKNOWN, VersionOf(second));
        c.(version := two, generation := Generation(High(one), Low(two)))
    case Storage(context, _) => c.(version := Refreshed(c.version, VERSION_UNKNOWN, VersionOf(context)))
  }

  /** Every accessor answers from the cache it leaves behind. */
  function Answer(c: Caches, op: Op): int {
    var after := Step(c, op);
    match op
    case BoardVersion(_) => after.version
    case CopyEnd(_) => after.copyEnd
    case BoardGeneration(_, _) => after.generation
    case Storage(_, pin) => StorageStatus(after.version, pin)
  }

  /** What each call leaves in the three cached words: a word is only ever written while it is the sentinel,
      with what the context holds. */
  lemma StepEffect(c: Caches, op: Op)
    ensures op.BoardVersion? || op.Storage? ==>
              Step(c, op) == c.(version := if c.version == 0x7fff_ffff && op.context.Some?
                                           then op.context.value.version else c.version)
    ensures op.CopyEnd? ==>
              Step(c, op) == c.(copyEnd := if c.copyEnd == 0xffff_ffff && op.context.Some?
                                           then op.context.value.copyEnd else c.copyEnd)
    ensures op.BoardGeneration? && c.generation != -1 ==> Step(c, op) == c
    ensures op.BoardGeneration? && c.generation == -1 ==>
              var one := Step(c, BoardVersion(op.first));
              var two := Step(one, BoardVersion(op.second));
              Step(c, op) == two.(generation := if one.version / 0x1_0000 == 0x13
                                                   && 0x10 <= two.version % 0x1_0000 < 0x100 then 1 else 2)
  {
  }

  /** And each answers from the words it leaves. */
  lemma AnswerEffect(c: Caches, op: Op)
    ensures op.BoardVersion? ==> Answer(c, op) == Step(c, op).version
    ensures op.CopyEnd? ==> Answer(c, op) == Step(c, op).copyEnd
    ensures op.BoardGeneration? ==> Answer(c, op) == Step(c, op).generation
    ensures op.Storage? ==> Answer(c, op) == StorageStatus(Step(c, op).version, op.pin)
  {
  }

  class SystemInfoCache {
    var version: u32
    var copyEnd: u32
    var generation: i8

    constructor ()
      ensures View() == INITIAL
    {
      version, copyEnd, generation := VERSION_UNKNOWN, END_UNKNOWN, GENERATION_UNKNOWN;
    }

    function View(): Caches
      reads this
    {
      Caches(version, copyEnd, generation)
    }

    /** `board_version` */
    method GetBoardVersion(context: Option<Context>) returns (word: u32)
      modifies this`version
      ensures View() == Step(old(View()), BoardVersion(context))
      ensures word == Answer(old(View()), BoardVersion(context))
    {
      if version == VERSION_UNKNOWN {
        if context.Some? {
          version := context.value.version;
        }
      }
      word := version;
    }

    /** `iram_copy_end_offset` */
    method GetCopyEnd(context: Option<Context>) returns (word: u32)
      modifies this`copyEnd
      ensures View() == Step(old(View()), CopyEnd(context))
      ensures word == Answer(old(View()), CopyEnd(context))
    {
      if copyEnd == END_UNKNOWN {
        if context.Some? {
          copyEnd := context.value.copyEnd;
        }
      }
      word := copyEnd;
    }

    /** `diagnostics_board_generation` */
    method GetGeneration(first: Option<Context>, second: Option<Context>) returns (result: i8)
      modifies this`version, this`generation
      ensures View() == Step(old(View()), BoardGeneration(first, second))
      ensures result == Answer(old(View()), BoardGeneration(first, second))
    {
      if generation != GENERATION_UNKNOWN {
        return generation;
      }
      var one := GetBoardVersion(first);
      var two := GetBoardVersion(second);
      generation := if High(one) == 0x13 && 0x10 <= Low(two) < 0x100 then 1 else 2;
      result := generation;
    }

    /** `storage_backend_status` */
    method GetStorageStatus(context: Option<Context>, pin: Pin) returns (status: u32)
      modifies this`version
      ensures View() == Step(old(View()), Storage(context, pin))
      ensures status == Answer(old(View()), Storage(context, pin))
    {
      var word := GetBoardVersion(context);
      var code := High(word);
      if 1 <= code <= 12 || code == 19 || code == 21 {
        status := PinStatus(pin);
      } else if code == 13 || 15 <= code <= 18 || code == 20 {
        status := 4;
      } else {
        status := 0;
      }
    }
  }

  // ---------------------------------------------------------------------------------------------
  // Runs
  // ---------------------------------------------------------------------------------------------

  function Run(c: Caches, ops: seq<Op>): Caches
    decreases |ops|
  {
    if ops == [] then c else Run(Step(c, ops[0]), ops[1..])
  }

  /** All version words a run asks for, in order. */
  function RunVersionReads(c: Caches, ops: seq<Op>): seq<Option<u32>>
    decreases |ops|
  {
    if ops == [] then [] else VersionReads(c, ops[0]) + RunVersionReads(Step(c, ops[0]), ops[1..])
  }

  function RunEndReads(ops: seq<Op>): seq<Option<u32>> {
    if ops == [] then []
    else (if ops[0].CopyEnd? then [EndOf(ops[0].context)] else []) + RunEndReads(ops[1..])
  }

  /** The first word found that is not the sentinel, or the sentinel. */
  function FirstGood(found: seq<Option<u32>>, sentinel: u32): u32 {
    if found == [] then sentinel
    else if found[0].Some? && found[0].value != sentinel then found[0].value
    else FirstGood(found[1..], sentinel)
  }

  lemma {:induction false} FirstGoodSplits(a: seq<Option<u32>>, b: seq<Option<u32>>, sentinel: u32)
    ensures FirstGood(a + b, sentinel)
            == if FirstGood(a, sentinel) != sentinel then FirstGood(a, sentinel) else FirstGood(b, sentinel)
  {
    if a == [] {
      assert a + b == b;
    } else {
      assert (a + b)[1..] == a[1..] + b;
      FirstGoodSplits(a[1..], b, sentinel);
    }
  }

  lemma StepFindsVersion(c: Caches, op: Op)
    ensures Step(c, op).version ==
            if c.version != VERSION_UNKNOWN then c.version else FirstGood(VersionReads(c, op), VERSION_UNKNOWN)
  {
    var found := VersionReads(c, op);
    if |found| == 2 {
      var rest := found[1..];
      assert rest == [found[1]] && FirstGood(rest[1..], VERSION_UNKNOWN) == VERSION_UNKNOWN;
    }
  }

  /** The version cache holds the first word that any call found and that is not the sentinel: unknown
      until then, and that same word for ever after. */
  lemma {:induction false} RunFindsVersion(c: Caches, ops: seq<Op>)
    ensures Run(c, ops).version ==
            if c.version != VERSION_UNKNOWN then c.version else FirstGood(RunVersionReads(c, ops), VERSION_UNKNOWN)
    decreases |ops|
  {
    if ops != [] {
      StepFindsVersion(c, ops[0]);
      RunFindsVersion(Step(c, ops[0]), ops[1..]);
      FirstGoodSplits(VersionReads(c, ops[0]), RunVersionReads(Step(c, ops[0]), ops[1..]), VERSION_UNKNOWN);
    }
  }

  lemma {:induction false} RunFindsEnd(c: Caches, ops: seq<Op>)
    ensures Run(c, ops).copyEnd ==
            if c.copyEnd != END_UNKNOWN then c.copyEnd else FirstGood(RunEndReads(ops), END_UNKNOWN)
    decreases |ops|
  {
    if ops != [] {
      var one := if ops[0].CopyEnd? then [EndOf(ops[0].context)] else [];
      assert Step(c, ops[0]).copyEnd == if c.copyEnd != END_UNKNOWN then c.copyEnd else FirstGood(one, END_UNKNOWN);
      RunFindsEnd(Step(c, ops[0]), ops[1..]);
      FirstGoodSplits(one, RunEndReads(ops[1..]), END_UNKNOWN);
    }
  }

  /** A known generation never changes. */
  lemma {:induction false} RunKeepsGeneration(c: Caches, ops: seq<Op>)
    requires c.generation != GENERATION_UNKNOWN
    ensures Run(c, ops).generation == c.generation
    decreases |ops|
  {
    if ops != [] {
      RunKeepsGeneration(Step(c, ops[0]), ops[1..]);
    }
  }

  /** The version words that a generation call's two reads see. */
  function FirstRead(c: Caches, first: Option<Context>): u32 {
    Refreshed(c.version, VERSION_UNKNOWN, VersionOf(first))
  }

  function SecondRead(c: Caches, first: Option<Context>, second: Option<Context>): u32 {
    Refreshed(FirstRead(c, first), VERSION_UNKNOWN, VersionOf(second))
  }

  /** The generation decided at this call is what classifying the version says after these later calls. */
  ghost predicate Agrees(c: Caches, first: Option<Context>, second: Option<Context>, later: seq<Op>) {
    var final := Run(Step(c, BoardGeneration(first, second)), later);
    final.generation == Generation(High(final.version), Low(final.version))
  }

  /** The first generation call decides for good, and what it decides agrees with the version whatever
      calls follow exactly when the version was known after the first read, or after the second as that
      of a generation-2 board. */
  lemma GenerationAgreesExactlyWhen(c: Caches, first: Option<Context>, second: Option<Context>)
    requires c.generation == GENERATION_UNKNOWN
    ensures var one, two := FirstRead(c, first), SecondRead(c, first, second);
            (forall later :: Agrees(c, first, second, later)) <==>
            one != VERSION_UNKNOWN || (two != VERSION_UNKNOWN && Generation(High(two), Low(two)) == 2)
  {
    var s := Step(c, BoardGeneration(first, second));
    var one, two := FirstRead(c, first), SecondRead(c, first, second);
    if one != VERSION_UNKNOWN || (two != VERSION_UNKNOWN && Generation(High(two), Low(two)) == 2) {
      forall later
        ensures Agrees(c, first, second, later)
      {
        RunKeepsGeneration(s, later);
        RunFindsVersion(s, later);
      }
    } else {
      var board := [BoardVersion(Some(Context(0x13_0010, 0)))];
      assert Run(s, board) == Step(s, board[0]) by {
        assert board[1..] == [];
      }
      assert !Agrees(c, first, second, board);
    }
  }

  /** Every later call answers what the first one did. */
  lemma GenerationAnswerStands(c: Caches, first: Option<Context>, second: Option<Context>, later: seq<Op>)
    requires c.generation == GENERATION_UNKNOWN
    ensures var op := BoardGeneration(first, second);
            Run(Step(c, op), later).generation == Answer(c, op)
  {
    RunKeepsGeneration(Step(c, BoardGeneration(first, second)), later);
  }

  /** The disagreement happens: with no context at the call and a generation-1 board appearing after it,
      even between its two reads. */
  lemma EarlyGenerationIsWrong()
    ensures var board := Some(Context(0x13_0010, 0));
            var s := Step(INITIAL, BoardGeneration(None, board));
            && s.version == 0x13_0010 && Generation(High(s.version), Low(s.version)) == 1 && s.generation == 2
  {
  }

  /** Once the version is known, storage status depends on it and the pin alone; before, it is 0. */
  lemma StorageFollowsVersion(c: Caches, ops: seq<Op>, context: Option<Context>, pin: Pin)
    ensures var before, after := Run(c, ops), Step(Run(c, ops), Storage(context, pin));
            && Answer(before, Storage(context, pin)) == StorageStatus(after.version, pin)
            && (c.version != VERSION_UNKNOWN ==> Answer(before, Storage(context, pin)) == StorageStatus(c.version, pin))
            && (after.version == VERSION_UNKNOWN ==> Answer(before, Storage(context, pin)) == 0)
  {
    RunFindsVersion(c, ops);
  }
}
