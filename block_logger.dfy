/** The example guest plugin `examples/plugins/block-logger/src/lib.rs`: a
    block-protection plugin that refuses to let players break a fixed list of
    valuable blocks, counts each player's broken, placed and refused blocks,
    and greets returning players.

    The plugin's thread-local statistics map is the field `stats` of class
    `BlockLogger`; the two host functions it calls (`host_log`,
    `host_send_message`) are recorded, in order, in the field `commands`.
    JSON decoding of the payload is a given function (`Json`) from bytes to an
    already decoded event, `None` standing for a decoding error. */
module BlockLogger {
  import opened Wrappers
  import opened Text

  // ---------------------------------------------------------------------------
  // The protection denylist

  /** The namespace of vanilla blocks. */
  const Namespace := "minecraft:"

  const ProtectedBlocks: seq<string> :=
    [Namespace + "diamond_ore", Namespace + "deepslate_diamond_ore", Namespace + "ancient_debris", Namespace + "spawner"]

  /** The entries without their namespace, as `trim_start_matches` leaves them. */
  const ProtectedNames: seq<string> := ["diamond_ore", "deepslate_diamond_ore", "ancient_debris", "spawner"]

  /** Denylist entry `j` against an already lowercased block type: the entry
      occurs in it, or it ends with the entry's name without namespace
      (`ProtectedNamesTrimmed` shows these are the trimmed entries). */
  predicate MatchesEntry(normalized: string, j: nat)
    requires j < |ProtectedBlocks|
  {
    Contains(normalized, ProtectedBlocks[j]) || EndsWith(normalized, ProtectedNames[j])
  }

  /** `any` over the entries from index `k` on. */
  predicate AnyMatch(normalized: string, k: nat)
    requires k <= |ProtectedBlocks|
    decreases |ProtectedBlocks| - k
  {
    if k == |ProtectedBlocks| then false
    else MatchesEntry(normalized, k) || AnyMatch(normalized, k + 1)
  }

  lemma {:induction false} AnyMatchIff(normalized: string, k: nat)
    requires k <= |ProtectedBlocks|
    ensures AnyMatch(normalized, k) <==> exists j :: k <= j < |ProtectedBlocks| && MatchesEntry(normalized, j)
    decreases |ProtectedBlocks| - k
  {
    if k < |ProtectedBlocks| {
      AnyMatchIff(normalized, k + 1);
    }
  }

  /** `is_protected`: some denylist entry occurs in the lowercased block
      type, or the block type ends with an entry's name. */
  predicate IsProtected(blockType: string)
    ensures IsProtected(blockType) <==> exists j :: 0 <= j < |ProtectedBlocks| && MatchesEntry(ToLower(blockType), j)
  {
    AnyMatchIff(ToLower(blockType), 0);
    AnyMatch(ToLower(blockType), 0)
  }

  /** Stripping the namespace from each entry leaves exactly `ProtectedNames`. */
  lemma ProtectedNamesTrimmed(j: nat)
    requires j < |ProtectedBlocks|
    ensures TrimStartMatches(ProtectedBlocks[j], "minecraft:") == ProtectedNames[j]
  {
    assert ProtectedBlocks[j] == Namespace + ProtectedNames[j];
    TrimNamespace(ProtectedNames[j]);
  }

  /** A name that does not start with `m` loses exactly its `minecraft:`
      namespace. */
  lemma TrimNamespace(name: string)
    requires |name| > 0 && name[0] != 'm'
    ensures TrimStartMatches(Namespace + name, "minecraft:") == name
  {
    var e := Namespace + name;
    assert e[..10] == "minecraft:";
    assert e[10..] == name;
    assert !StartsWith(name, "minecraft:") by {
      if |name| >= 10 { assert name[..10][0] == name[0]; }
    }
  }

  /** Denylist entry `j` as `is_protected` writes the test, trimming the
      namespace off the entry itself. */
  predicate MatchesTrimmed(normalized: string, j: nat)
    requires j < |ProtectedBlocks|
  {
    Contains(normalized, ProtectedBlocks[j]) || EndsWith(normalized, TrimStartMatches(ProtectedBlocks[j], "minecraft:"))
  }

  /** The denylist test as `is_protected` computes it. */
  lemma ProtectedIff(blockType: string)
    ensures IsProtected(blockType) <==> exists j :: 0 <= j < |ProtectedBlocks| && MatchesTrimmed(ToLower(blockType), j)
  {
    var lower := ToLower(blockType);
    forall j | 0 <= j < |ProtectedBlocks| ensures MatchesTrimmed(lower, j) == MatchesEntry(lower, j) {
      ProtectedNamesTrimmed(j);
    }
  }

  /** The test looks only at the lowercased block type, so it ignores case. */
  lemma ProtectedIgnoresCase(blockType: string)
    ensures IsProtected(ToUpper(blockType)) == IsProtected(blockType)
    ensures IsProtected(ToLower(blockType)) == IsProtected(blockType)
  {
    LowerOfUpper(blockType);
    LowerIdempotent(blockType);
  }

  /** A block of any namespace whose name ends like a protected one is
      protected, e.g. `othermod:ancient_debris`. */
  lemma ProtectedAnyNamespace(blockType: string, j: nat)
    requires j < |ProtectedNames| && EndsWith(ToLower(blockType), ProtectedNames[j])
    ensures IsProtected(blockType)
  {
    assert MatchesEntry(ToLower(blockType), j);
  }

  lemma OtherModDebrisProtected()
    ensures IsProtected("othermod:ancient_debris")
  {
    var ns, name := "othermod:", "ancient_debris";
    assert "othermod:ancient_debris" == ns + name;
    LowerAppend(ns, name);
    LowerAncientDebris();
    assert EndsWith(ToLower(ns + name), ProtectedNames[2]) by {
      var lower := ToLower(ns + name);
      assert lower[|lower| - |name|..] == ToLower(name);
    }
    ProtectedAnyNamespace(ns + name, 2);
  }

  lemma LowerAncientDebris()
    ensures ToLower("ancient_debris") == "ancient_debris"
  {
  }

  /** A block type shorter than every entry name, such as `stone`, is not
      protected. */
  lemma ShortNotProtected(blockType: string)
    requires |blockType| < 7
    ensures !IsProtected(blockType)
  {
    var lower := ToLower(blockType);
    forall j | 0 <= j < |ProtectedBlocks| ensures !MatchesEntry(lower, j) {
    }
  }

  // ---------------------------------------------------------------------------
  // Block names

  /** `extract_block_name`: the last `:`-separated piece, i.e. the text after
      the last colon, or the whole string when it has none. */
  function ExtractBlockName(full: string): (r: string)
    ensures EndsWith(full, r) && ':' !in r
    ensures ':' in full ==> |r| < |full| && full[|full| - |r| - 1] == ':'
    ensures ':' !in full ==> r == full
  {
    var pieces := Split(full, ':');
    SplitLast(full, ':');
    pieces[|pieces| - 1]
  }

  /** A namespaced name gives back its name. */
  lemma ExtractNamespaced(namespace: string, name: string)
    requires ':' !in name
    ensures ExtractBlockName(namespace + ":" + name) == name
  {
    SplitConcat(namespace, ':', name);
    SplitNoSep(name, ':');
    assert namespace + ":" + name == namespace + [':'] + name;
  }

  // ---------------------------------------------------------------------------
  // Per-player statistics

  /** Per-player counters (`u64` in the plugin). */
  datatype Stats = Stats(broken: nat, placed: nat, denied: nat)

  const NoStats := Stats(0, 0, 0)

  type StatsMap = map<string, Stats>

  /** `get_stats`: the player's record, or a zero record when there is none. */
  function StatsOf(m: StatsMap, uuid: string): (s: Stats)
    ensures uuid in m ==> s == m[uuid]
    ensures uuid !in m ==> s.broken == 0 && s.placed == 0 && s.denied == 0
  {
    if uuid in m then m[uuid] else NoStats
  }

  /** The counters `update_stats` is called with. */
  datatype Counter = Broken | Placed | Denied

  function Bump(s: Stats, c: Counter): Stats {
    match c
    case Broken => s.(broken := s.broken + 1)
    case Placed => s.(placed := s.placed + 1)
    case Denied => s.(denied := s.denied + 1)
  }

  /** The effect of `update_stats(uuid, f)`: the player's record is created as
      zero if absent and `f` is applied to it. */
  function StatsUpdated(m: StatsMap, uuid: string, c: Counter): (r: StatsMap)
    ensures r.Keys == m.Keys + {uuid}
    ensures StatsOf(r, uuid) == Bump(StatsOf(m, uuid), c)
    ensures forall u :: u != uuid ==> StatsOf(r, u) == StatsOf(m, u)
  {
    m[uuid := Bump(StatsOf(m, uuid), c)]
  }

  // ---------------------------------------------------------------------------
  // Events, results and host commands

  datatype Player = Player(uuid: string, name: string)

  /** Block coordinates (`i32` in the plugin). */
  datatype Position = Position(x: int, y: int, z: int)

  datatype Block = Block(blockType: string, position: Position, properties: map<string, string>)

  datatype ItemStack = ItemStack(itemType: string, count: int)

  datatype BlockBreakEvent = BlockBreakEvent(player: Player, block: Block, drops: seq<ItemStack>, experience: int)

  datatype BlockPlaceEvent = BlockPlaceEvent(player: Player, block: Block)

  datatype PlayerJoinEvent = PlayerJoinEvent(player: Player)

  /** The plugin's `EventResult`; its default is "not cancelled, no modifications". */
  datatype EventResult = EventResult(cancelled: bool, modifications: Option<map<string, string>>)

  const DefaultResult := EventResult(false, None)

  /** The JSON codec: decoding of each payload kind (`None` on a parse error)
      and encoding of a modifications map (`None` if encoding fails). */
  datatype Json = Json(
    decodeBreak: Bytes -> Option<BlockBreakEvent>,
    decodePlace: Bytes -> Option<BlockPlaceEvent>,
    decodeJoin: Bytes -> Option<PlayerJoinEvent>,
    encodeModifications: map<string, string> -> Option<Bytes>)

  /** A host call: `host_log(level, message)` or `host_send_message(uuid, message)`. */
  datatype Command = Log(level: string, message: string) | Notify(uuid: string, message: string)

  // ---------------------------------------------------------------------------
  // Messages

  /** Minecraft chat formatting codes: the section sign followed by one code character. */
  const Red := "\U{00A7}c"
  const Bold := "\U{00A7}l"
  const Reset := "\U{00A7}r"
  const Gray := "\U{00A7}7"
  const Yellow := "\U{00A7}e"

  function ProtectedNotice(blockType: string): string {
    Red + Bold + "Protected! " + Reset + Gray + ExtractBlockName(blockType) + " cannot be mined."
  }

  function At(p: Position): string {
    IntToString(p.x) + "," + IntToString(p.y) + "," + IntToString(p.z)
  }

  function DeniedLog(ev: BlockBreakEvent): string {
    ev.player.name + " tried to break protected block " + ev.block.blockType + " at " + At(ev.block.position)
  }

  function BrokeLog(ev: BlockBreakEvent): string {
    ev.player.name + " broke " + ev.block.blockType + " at " + At(ev.block.position)
  }

  function PlacedLog(ev: BlockPlaceEvent): string {
    ev.player.name + " placed " + ev.block.blockType + " at " + At(ev.block.position)
  }

  function JoinedLog(ev: PlayerJoinEvent): string {
    ev.player.name + " joined"
  }

  function BrokenMilestone(n: nat): string {
    Yellow + NatToString(n) + " " + Gray + "blocks broken"
  }

  function PlacedMilestone(n: nat): string {
    Yellow + NatToString(n) + " " + Gray + "blocks placed"
  }

  function WelcomeBack(s: Stats): string {
    Gray + "Welcome back! " + Yellow + NatToString(s.broken) + " " + Gray + "broken, " + Yellow + NatToString(s.placed) + " " + Gray + "placed"
  }

  /** A milestone fires on every 50th block. Stated by subtraction so that
      proofs about runs of events need no division; `MilestoneMod` shows it
      is `n % 50 == 0`. */
  predicate Milestone(n: nat)
    decreases n
  {
    if n < 50 then n == 0 else Milestone(n - 50)
  }

  lemma {:induction false} MilestoneMod(n: nat)
    ensures Milestone(n) <==> n % 50 == 0
    decreases n
  {
    if n >= 50 {
      MilestoneMod(n - 50);
    }
  }

  /** The notices sent to one player. */
  function NoticesTo(cs: seq<Command>, uuid: string): (r: nat)
    ensures r <= |cs|
  {
    if |cs| == 0 then 0
    else NoticesTo(cs[..|cs| - 1], uuid) + (if cs[|cs| - 1].Notify? && cs[|cs| - 1].uuid == uuid then 1 else 0)
  }

  lemma NoticesToAppend(a: seq<Command>, b: seq<Command>, uuid: string)
    ensures NoticesTo(a + b, uuid) == NoticesTo(a, uuid) + NoticesTo(b, uuid)
    decreases |b|
  {
    if |b| > 0 {
      assert (a + b)[..|a + b| - 1] == a + b[..|b| - 1];
      NoticesToAppend(a, b[..|b| - 1], uuid);
    } else {
      assert a + b == a;
    }
  }

  // ---------------------------------------------------------------------------
  // What each handler does, as a value

  /** A handler's effect: the new statistics, the host calls it makes, in
      order, and its result. */
  datatype Effect = Effect(stats: StatsMap, emitted: seq<Command>, result: EventResult)

  /** `on_block_break` on a decoded event, once it is known whether the block
      is protected: a protected block is refused and counted as denied, any
      other is counted as broken, with a notice on every 50th. */
  function BreakOutcome(m: StatsMap, ev: BlockBreakEvent, protected: bool): (e: Effect)
    ensures e.result == EventResult(protected, None)
    ensures protected ==>
      && StatsOf(e.stats, ev.player.uuid) == StatsOf(m, ev.player.uuid).(denied := StatsOf(m, ev.player.uuid).denied + 1)
      && e.emitted == [Notify(ev.player.uuid, ProtectedNotice(ev.block.blockType)), Log("warn", DeniedLog(ev))]
    ensures !protected ==>
      var n := StatsOf(m, ev.player.uuid).broken + 1;
      && StatsOf(e.stats, ev.player.uuid) == StatsOf(m, ev.player.uuid).(broken := n)
      && e.emitted == (if Milestone(n) then [Notify(ev.player.uuid, BrokenMilestone(n))] else []) + [Log("debug", BrokeLog(ev))]
    ensures forall u :: u != ev.player.uuid ==> StatsOf(e.stats, u) == StatsOf(m, u)
  {
    var uuid := ev.player.uuid;
    if protected then
      Effect(StatsUpdated(m, uuid, Denied),
        [Notify(uuid, ProtectedNotice(ev.block.blockType)), Log("warn", DeniedLog(ev))],
        EventResult(true, None))
    else
      var m' := StatsUpdated(m, uuid, Broken);
      var n := StatsOf(m', uuid).broken;
      Effect(m', (if Milestone(n) then [Notify(uuid, BrokenMilestone(n))] else []) + [Log("debug", BrokeLog(ev))],
        DefaultResult)
  }

  /** `on_block_break` on a decoded event: the break is cancelled exactly for
      a protected block, and it counts once, as denied or as broken, for
      that player alone. */
  function BreakEffect(m: StatsMap, ev: BlockBreakEvent): (e: Effect)
    ensures e.result.cancelled <==> IsProtected(ev.block.blockType)
    ensures e.result.modifications.None?
    ensures var before, after := StatsOf(m, ev.player.uuid), StatsOf(e.stats, ev.player.uuid);
      && after.placed == before.placed
      && after.broken + after.denied == before.broken + before.denied + 1
      && (after.denied > before.denied <==> IsProtected(ev.block.blockType))
    ensures forall u :: u != ev.player.uuid ==> StatsOf(e.stats, u) == StatsOf(m, u)
  {
    BreakOutcome(m, ev, IsProtected(ev.block.blockType))
  }

  /** `on_block_place` on a decoded event. */
  function PlaceEffect(m: StatsMap, ev: BlockPlaceEvent): (e: Effect)
    ensures e.result == DefaultResult
    ensures var n := StatsOf(m, ev.player.uuid).placed + 1;
      && StatsOf(e.stats, ev.player.uuid) == StatsOf(m, ev.player.uuid).(placed := n)
      && e.emitted == (if Milestone(n) then [Notify(ev.player.uuid, PlacedMilestone(n))] else []) + [Log("debug", PlacedLog(ev))]
    ensures forall u :: u != ev.player.uuid ==> StatsOf(e.stats, u) == StatsOf(m, u)
  {
    var uuid := ev.player.uuid;
    var m' := StatsUpdated(m, uuid, Placed);
    var n := StatsOf(m', uuid).placed;
    Effect(m', (if Milestone(n) then [Notify(uuid, PlacedMilestone(n))] else []) + [Log("debug", PlacedLog(ev))],
      DefaultResult)
  }

  /** `on_player_join` on a decoded event: statistics are only read. */
  function JoinEffect(m: StatsMap, ev: PlayerJoinEvent): (e: Effect)
    ensures e.result == DefaultResult && e.stats == m
    ensures var s := StatsOf(m, ev.player.uuid);
      e.emitted == (if s.broken > 0 || s.placed > 0 then [Notify(ev.player.uuid, WelcomeBack(s))] else []) + [Log("info", JoinedLog(ev))]
  {
    var s := StatsOf(m, ev.player.uuid);
    Effect(m, (if s.broken > 0 || s.placed > 0 then [Notify(ev.player.uuid, WelcomeBack(s))] else []) + [Log("info", JoinedLog(ev))],
      DefaultResult)
  }

  /** A welcome is sent exactly to players with some block broken or placed. */
  lemma WelcomeIff(m: StatsMap, ev: PlayerJoinEvent)
    ensures NoticesTo(JoinEffect(m, ev).emitted, ev.player.uuid) == 1
            <==> StatsOf(m, ev.player.uuid).broken > 0 || StatsOf(m, ev.player.uuid).placed > 0
    ensures NoticesTo(JoinEffect(m, ev).emitted, ev.player.uuid) <= 1
  {
    var e := JoinEffect(m, ev);
    var s := StatsOf(m, ev.player.uuid);
    var head: seq<Command> := if s.broken > 0 || s.placed > 0 then [Notify(ev.player.uuid, WelcomeBack(s))] else [];
    NoticesToAppend(head, [Log("info", JoinedLog(ev))], ev.player.uuid);
    assert NoticesTo([Log("info", JoinedLog(ev))], ev.player.uuid) == 0;
    if |head| == 1 {
      assert NoticesTo(head, ev.player.uuid) == 1 by {
        assert head[..0] == [];
      }
    }
  }

  // ---------------------------------------------------------------------------
  // Milestones over a run of breaks

  /** Breaking the blocks of `blocks`, in order, as one player. */
  function BreakRun(m: StatsMap, player: Player, blocks: seq<Block>): Effect
    decreases |blocks|
  {
    if |blocks| == 0 then Effect(m, [], DefaultResult)
    else
      var before := BreakRun(m, player, blocks[..|blocks| - 1]);
      var step := BreakEffect(before.stats, BlockBreakEvent(player, blocks[|blocks| - 1], [], 0));
      Effect(step.stats, before.emitted + step.emitted, step.result)
  }

  /** The same run when every block is known to be unprotected. */
  function UnprotectedRun(m: StatsMap, player: Player, blocks: seq<Block>): Effect
    decreases |blocks|
  {
    if |blocks| == 0 then Effect(m, [], DefaultResult)
    else
      var before := UnprotectedRun(m, player, blocks[..|blocks| - 1]);
      var step := BreakOutcome(before.stats, BlockBreakEvent(player, blocks[|blocks| - 1], [], 0), false);
      Effect(step.stats, before.emitted + step.emitted, step.result)
  }

  predicate AllUnprotected(blocks: seq<Block>) {
    forall k :: 0 <= k < |blocks| ==> !IsProtected(blocks[k].blockType)
  }

  lemma {:induction false} RunsAgree(m: StatsMap, player: Player, blocks: seq<Block>)
    requires AllUnprotected(blocks)
    ensures BreakRun(m, player, blocks) == UnprotectedRun(m, player, blocks)
    decreases |blocks|
  {
    if |blocks| > 0 {
      var init := blocks[..|blocks| - 1];
      assert AllUnprotected(init) by {
        forall k | 0 <= k < |init| ensures !IsProtected(init[k].blockType) {
          assert init[k] == blocks[k];
        }
      }
      RunsAgree(m, player, init);
      assert !IsProtected(blocks[|blocks| - 1].blockType);
    }
  }

  /** One unprotected break sends the player one notice exactly when the new
      count `n` is a multiple of 50. */
  lemma BreakNotices(m: StatsMap, ev: BlockBreakEvent, n: nat)
    requires n == StatsOf(m, ev.player.uuid).broken + 1
    ensures NoticesTo(BreakOutcome(m, ev, false).emitted, ev.player.uuid) == if Milestone(n) then 1 else 0
    ensures StatsOf(BreakOutcome(m, ev, false).stats, ev.player.uuid).broken == n
  {
    var head: seq<Command> := if Milestone(n) then [Notify(ev.player.uuid, BrokenMilestone(n))] else [];
    var e := BreakOutcome(m, ev, false);
    assert e.emitted == head + [Log("debug", BrokeLog(ev))];
    NoticesToAppend(head, [Log("debug", BrokeLog(ev))], ev.player.uuid);
    assert NoticesTo([Log("debug", BrokeLog(ev))], ev.player.uuid) == 0;
    assert NoticesTo(head, ev.player.uuid) == if Milestone(n) then 1 else 0 by {
      if Milestone(n) {
        assert head[..0] == [];
      }
    }
  }

  /** The multiples of 50 among `b + 1`, ..., `b + n`. */
  function MilestonesAfter(b: nat, n: nat): nat
    decreases n
  {
    if n == 0 then 0 else MilestonesAfter(b, n - 1) + (if Milestone(b + n) then 1 else 0)
  }

  lemma {:induction false} MilestonesAfterCount(b: nat, n: nat)
    ensures MilestonesAfter(b, n) == (b + n) / 50 - b / 50
    decreases n
  {
    if n > 0 {
      MilestonesAfterCount(b, n - 1);
      MilestoneStep(b + n - 1);
    }
  }

  lemma MilestonesAfterStep(b: nat, k: nat, j: nat)
    requires j + 1 == k
    ensures MilestonesAfter(b, k) == MilestonesAfter(b, j) + if Milestone(b + k) then 1 else 0
  {
  }

  /** One more block passes a multiple of 50 exactly when the new count is one. */
  lemma MilestoneStep(x: nat)
    ensures (x + 1) / 50 == x / 50 + (if Milestone(x + 1) then 1 else 0)
  {
    MilestoneMod(x + 1);
  }

  /** `k` unprotected breaks by one player raise their count by `k`. */
  lemma {:induction false} RunCount(m: StatsMap, player: Player, blocks: seq<Block>)
    ensures StatsOf(UnprotectedRun(m, player, blocks).stats, player.uuid).broken == StatsOf(m, player.uuid).broken + |blocks|
    decreases |blocks|
  {
    if |blocks| > 0 {
      var init := blocks[..|blocks| - 1];
      RunCount(m, player, init);
      var before := UnprotectedRun(m, player, init);
      var ev := BlockBreakEvent(player, blocks[|blocks| - 1], [], 0);
      BreakNotices(before.stats, ev, StatsOf(m, player.uuid).broken + |blocks|);
    }
  }

  /** ... and send them one notice for each multiple of 50 reached. */
  lemma {:induction false} RunMilestones(m: StatsMap, player: Player, blocks: seq<Block>)
    ensures NoticesTo(UnprotectedRun(m, player, blocks).emitted, player.uuid) == MilestonesAfter(StatsOf(m, player.uuid).broken, |blocks|)
    decreases |blocks|
  {
    if |blocks| > 0 {
      var init := blocks[..|blocks| - 1];
      RunMilestones(m, player, init);
      RunCount(m, player, init);
      var before := UnprotectedRun(m, player, init);
      var ev := BlockBreakEvent(player, blocks[|blocks| - 1], [], 0);
      var step := BreakOutcome(before.stats, ev, false);
      var b := StatsOf(m, player.uuid).broken;
      BreakNotices(before.stats, ev, b + |blocks|);
      assert UnprotectedRun(m, player, blocks).emitted == before.emitted + step.emitted;
      NoticesToAppend(before.emitted, step.emitted, player.uuid);
      MilestonesAfterStep(b, |blocks|, |init|);
    }
  }

  /** From a player with no record, N unprotected breaks send exactly N / 50
      milestone notices. */
  lemma FreshBreakMilestones(m: StatsMap, player: Player, blocks: seq<Block>)
    requires player.uuid !in m && AllUnprotected(blocks)
    ensures NoticesTo(BreakRun(m, player, blocks).emitted, player.uuid) == |blocks| / 50
    ensures StatsOf(BreakRun(m, player, blocks).stats, player.uuid).broken == |blocks|
  {
    RunsAgree(m, player, blocks);
    RunCount(m, player, blocks);
    RunMilestones(m, player, blocks);
    MilestonesAfterCount(0, |blocks|);
  }

  // ---------------------------------------------------------------------------
  // The envelope

  /** The index of the first zero byte, or the length when there is none. */
  function FirstZero(envelope: Bytes): (r: nat)
    ensures r <= |envelope|
    ensures forall i :: 0 <= i < r ==> envelope[i] != 0
    ensures r < |envelope| ==> envelope[r] == 0
    decreases |envelope|
  {
    if |envelope| == 0 then 0
    else if envelope[0] == 0 then 0
    else 1 + FirstZero(envelope[1..])
  }

  /** The split of `handle_event`: the tag before the first zero byte and the
      payload after it (empty when there is no zero byte). */
  function SplitEnvelope(envelope: Bytes): (r: (Bytes, Bytes))
    ensures 0 !in r.0
    ensures 0 in envelope ==> envelope == r.0 + [0] + r.1
    ensures 0 !in envelope ==> r.0 == envelope && r.1 == []
  {
    var sep := FirstZero(envelope);
    var payload := if sep < |envelope| then envelope[sep + 1..] else [];
    assert sep < |envelope| ==> envelope == envelope[..sep] + [0] + payload;
    (envelope[..sep], payload)
  }

  /** `from_utf8(tag).unwrap_or("")` on ASCII tags; any tag with a byte of 128
      or more becomes "" (no such tag is routed to a handler either way). */
  function DecodeTag(tag: Bytes): (r: string)
    ensures (forall i :: 0 <= i < |tag| ==> tag[i] < 128) ==> |r| == |tag| && forall i :: 0 <= i < |tag| ==> r[i] as int == tag[i] as int
    ensures (exists i :: 0 <= i < |tag| && tag[i] >= 128) ==> r == ""
  {
    if forall i :: 0 <= i < |tag| ==> tag[i] < 128 then seq(|tag|, i requires 0 <= i < |tag| => tag[i] as int as char)
    else ""
  }

  /** The event types `handle_event` routes to a handler. */
  const BreakTag := "block_break"
  const PlaceTag := "block_place"
  const JoinTag := "player_join"

  /** The outcome bytes: one cancel byte, then the encoded modifications when
      there are any and they encode. */
  function EncodeResult(res: EventResult, json: Json): (out: Bytes)
    ensures |out| >= 1 && (out[0] == 1 <==> res.cancelled) && (out[0] == 0 <==> !res.cancelled)
    ensures res.modifications.None? ==> |out| == 1
  {
    [if res.cancelled then 1 else 0]
      + match res.modifications
        case None => []
        case Some(mods) => json.encodeModifications(mods).GetOr([])
  }

  /** What `handle_event` does with the statistics: route on the tag, decode,
      and run the handler; a decoding failure or an unknown tag changes
      nothing and yields the default result. */
  function HandleEffect(m: StatsMap, envelope: Bytes, json: Json): (e: Effect)
    ensures e.result.modifications == None
    ensures e.result.cancelled ==> DecodeTag(SplitEnvelope(envelope).0) == BreakTag
    ensures DecodeTag(SplitEnvelope(envelope).0) !in {BreakTag, PlaceTag, JoinTag} ==> e == Effect(m, [], DefaultResult)
  {
    var (tag, payload) := SplitEnvelope(envelope);
    var eventType := DecodeTag(tag);
    if eventType == BreakTag then
      match json.decodeBreak(payload)
      case Some(ev) => BreakEffect(m, ev)
      case None => Effect(m, [], DefaultResult)
    else if eventType == PlaceTag then
      match json.decodePlace(payload)
      case Some(ev) => PlaceEffect(m, ev)
      case None => Effect(m, [], DefaultResult)
    else if eventType == JoinTag then
      match json.decodeJoin(payload)
      case Some(ev) => JoinEffect(m, ev)
      case None => Effect(m, [], DefaultResult)
    else Effect(m, [], DefaultResult)
  }

  /** No handler sets modifications, so the output is always a single byte:
      1 exactly when a protected block break was refused. */
  lemma OutputIsOneByte(m: StatsMap, envelope: Bytes, json: Json)
    ensures var out := EncodeResult(HandleEffect(m, envelope, json).result, json);
      |out| == 1 && (out[0] == 1 <==> HandleEffect(m, envelope, json).result.cancelled)
  {
  }

  // ---------------------------------------------------------------------------
  // The plugin's state and entry points

  class BlockLogger {
    /** `STATS`: per-player counters, keyed by UUID. */
    var stats: StatsMap
    /** The host calls made so far, oldest first. */
    var commands: seq<Command>

    constructor ()
      ensures stats == map[] && commands == []
    {
      stats := map[];
      commands := [];
    }

    function GetStats(uuid: string): (s: Stats)
      reads this
      ensures uuid !in stats ==> s == NoStats
      ensures uuid in stats ==> s == stats[uuid]
    {
      StatsOf(stats, uuid)
    }

    method UpdateStats(uuid: string, c: Counter)
      modifies this
      ensures stats == StatsUpdated(old(stats), uuid, c)
      ensures commands == old(commands)
    {
      var s := if uuid in stats then stats[uuid] else NoStats;
      stats := stats[uuid := Bump(s, c)];
    }

    /** `log`: one `host_log` call; its result is ignored. */
    method Log(level: string, message: string)
      modifies this
      ensures commands == old(commands) + [Command.Log(level, message)]
      ensures stats == old(stats)
    {
      commands := commands + [Command.Log(level, message)];
    }

    /** `notify`: one `host_send_message` call; its result is ignored. */
    method Notify(uuid: string, message: string)
      modifies this
      ensures commands == old(commands) + [Command.Notify(uuid, message)]
      ensures stats == old(stats)
    {
      commands := commands + [Command.Notify(uuid, message)];
    }

    /** `plugin_init`, `on_enable` and `on_disable` each log one line. */
    method PluginInit()
      modifies this
      ensures commands == old(commands) + [Command.Log("info", "block protection initialized")]
      ensures stats == old(stats)
    {
      Log("info", "block protection initialized");
    }

    method OnEnable()
      modifies this
      ensures commands == old(commands) + [Command.Log("info", "block protection enabled")]
      ensures stats == old(stats)
    {
      Log("info", "block protection enabled");
    }

    method OnDisable()
      modifies this
      ensures commands == old(commands) + [Command.Log("info", "block protection disabled")]
      ensures stats == old(stats)
    {
      Log("info", "block protection disabled");
    }

    /** `on_block_break`: `None` when the payload does not decode. */
    method OnBlockBreak(payload: Bytes, json: Json) returns (r: Option<EventResult>)
      modifies this
      ensures json.decodeBreak(payload).None? ==> r.None? && stats == old(stats) && commands == old(commands)
      ensures json.decodeBreak(payload).Some? ==>
        var e := BreakEffect(old(stats), json.decodeBreak(payload).value);
        r == Some(e.result) && stats == e.stats && commands == old(commands) + e.emitted
    {
      var decoded := json.decodeBreak(payload);
      if decoded.None? {
        return None;
      }
      var ev := decoded.value;
      var result;
      if IsProtected(ev.block.blockType) {
        result := DenyBreak(ev);
      } else {
        result := CountBreak(ev);
      }
      return Some(result);
    }

    /** The protected branch of `on_block_break`. */
    method DenyBreak(ev: BlockBreakEvent) returns (r: EventResult)
      modifies this
      ensures var e := BreakOutcome(old(stats), ev, true);
        r == e.result && stats == e.stats && commands == old(commands) + e.emitted
    {
      UpdateStats(ev.player.uuid, Denied);
      Notify(ev.player.uuid, ProtectedNotice(ev.block.blockType));
      Log("warn", DeniedLog(ev));
      r := EventResult(true, None);
    }

    /** The counting branch of `on_block_break`. */
    method CountBreak(ev: BlockBreakEvent) returns (r: EventResult)
      modifies this
      ensures var e := BreakOutcome(old(stats), ev, false);
        r == e.result && stats == e.stats && commands == old(commands) + e.emitted
    {
      UpdateStats(ev.player.uuid, Broken);
      var s := GetStats(ev.player.uuid);
      MilestoneMod(s.broken);
      if s.broken % 50 == 0 {
        Notify(ev.player.uuid, BrokenMilestone(s.broken));
      }
      Log("debug", BrokeLog(ev));
      r := DefaultResult;
    }

    /** `on_block_place`. */
    method OnBlockPlace(payload: Bytes, json: Json) returns (r: Option<EventResult>)
      modifies this
      ensures json.decodePlace(payload).None? ==> r.None? && stats == old(stats) && commands == old(commands)
      ensures json.decodePlace(payload).Some? ==>
        var e := PlaceEffect(old(stats), json.decodePlace(payload).value);
        r == Some(e.result) && stats == e.stats && commands == old(commands) + e.emitted
    {
      var decoded := json.decodePlace(payload);
      if decoded.None? {
        return None;
      }
      var ev := decoded.value;
      UpdateStats(ev.player.uuid, Placed);
      var s := GetStats(ev.player.uuid);
      MilestoneMod(s.placed);
      if s.placed % 50 == 0 {
        Notify(ev.player.uuid, PlacedMilestone(s.placed));
      }
      Log("debug", PlacedLog(ev));
      return Some(DefaultResult);
    }

    /** `on_player_join`. */
    method OnPlayerJoin(payload: Bytes, json: Json) returns (r: Option<EventResult>)
      modifies this
      ensures json.decodeJoin(payload).None? ==> r.None? && stats == old(stats) && commands == old(commands)
      ensures json.decodeJoin(payload).Some? ==>
        var e := JoinEffect(old(stats), json.decodeJoin(payload).value);
        r == Some(e.result) && stats == e.stats && commands == old(commands) + e.emitted
    {
      var decoded := json.decodeJoin(payload);
      if decoded.None? {
        return None;
      }
      var ev := decoded.value;
      var s := GetStats(ev.player.uuid);
      if s.broken > 0 || s.placed > 0 {
        Notify(ev.player.uuid, WelcomeBack(s));
      }
      Log("info", JoinedLog(ev));
      return Some(DefaultResult);
    }

    /** `handle_event`: split the envelope, route on the tag, fall back to the
        default result, and encode it. */
    method HandleEvent(envelope: Bytes, json: Json) returns (out: Bytes)
      modifies this
      ensures var e := HandleEffect(old(stats), envelope, json);
        && stats == e.stats && commands == old(commands) + e.emitted
        && out == EncodeResult(e.result, json)
    {
      var sep := 0;
      while sep < |envelope| && envelope[sep] != 0
        invariant 0 <= sep <= |envelope|
        invariant forall i :: 0 <= i < sep ==> envelope[i] != 0
      {
        sep := sep + 1;
      }
      assert sep == FirstZero(envelope) by {
        FirstZeroIs(envelope, sep);
      }
      var eventType := DecodeTag(envelope[..sep]);
      var payload := if sep < |envelope| then envelope[sep + 1..] else [];
      var result: Option<EventResult>;
      if eventType == BreakTag {
        result := OnBlockBreak(payload, json);
      } else if eventType == PlaceTag {
        result := OnBlockPlace(payload, json);
      } else if eventType == JoinTag {
        result := OnPlayerJoin(payload, json);
      } else {
        result := Some(DefaultResult);
      }
      var res := result.GetOr(DefaultResult);
      out := [if res.cancelled then 1 else 0];
      if res.modifications.Some? {
        var encoded := json.encodeModifications(res.modifications.value);
        if encoded.Some? {
          out := out + encoded.value;
        }
      }
    }
  }

  /** The scan of `position`: the first index holding zero, or the length. */
  lemma {:induction false} FirstZeroIs(envelope: Bytes, sep: nat)
    requires sep <= |envelope| && (forall i :: 0 <= i < sep ==> envelope[i] != 0)
    requires sep < |envelope| ==> envelope[sep] == 0
    ensures sep == FirstZero(envelope)
    decreases sep
  {
    if sep > 0 {
      FirstZeroIs(envelope[1..], sep - 1);
    }
  }
}
