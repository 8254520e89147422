/** The plugin manifest of `pkg/plugin/manifest.go`: versions and their order,
    the event names a manifest may subscribe to, dependencies, resource limits,
    and manifest validation with its plugin-ID pattern. */
module PluginManifest {
  import opened Wrappers
  import opened Text

  // ---------------------------------------------------------------------------
  // Versions

  datatype Version = Version(major: int, minor: int, patch: int)

  /** The strict lexicographic order on (major, minor, patch). */
  predicate VersionLess(a: Version, b: Version) {
    a.major < b.major
    || (a.major == b.major && (a.minor < b.minor || (a.minor == b.minor && a.patch < b.patch)))
  }

  /** Go's `cmp.Compare` on integers. */
  function CompareInt(a: int, b: int): (c: int)
    ensures c == -1 <==> a < b
    ensures c == 0 <==> a == b
    ensures c == 1 <==> a > b
  {
    if a < b then -1 else if a > b then 1 else 0
  }

  /** `Version.Compare`: -1, 0 or 1 as `v` sorts before, equal to or after `other`. */
  function Compare(v: Version, other: Version): (c: int)
    ensures c == -1 <==> VersionLess(v, other)
    ensures c == 0 <==> v == other
    ensures c == 1 <==> VersionLess(other, v)
  {
    var c1 := CompareInt(v.major, other.major);
    if c1 != 0 then c1
    else
      var c2 := CompareInt(v.minor, other.minor);
      if c2 != 0 then c2 else CompareInt(v.patch, other.patch)
  }

  /** Comparing in the other direction flips the sign. */
  lemma CompareAntisymmetric(a: Version, b: Version)
    ensures Compare(a, b) == -Compare(b, a)
    ensures Compare(a, a) == 0
  {
  }

  lemma CompareTransitive(a: Version, b: Version, c: Version)
    requires Compare(a, b) < 0 && Compare(b, c) < 0
    ensures Compare(a, c) < 0
  {
  }

  /** `Version.String`: "Major.Minor.Patch" in decimal. */
  function VersionString(v: Version): (r: string)
    ensures ParseVersion(r) == Some(v)
  {
    var r := IntToString(v.major) + "." + IntToString(v.minor) + "." + IntToString(v.patch);
    VersionStringSplits(v);
    IntRoundTrip(v.major);
    IntRoundTrip(v.minor);
    IntRoundTrip(v.patch);
    r
  }

  /** Reads a version back from its printed form. */
  function ParseVersion(s: string): Option<Version> {
    var parts := Split(s, '.');
    if |parts| != 3 then None
    else match (ParseInt(parts[0]), ParseInt(parts[1]), ParseInt(parts[2]))
      case (Some(a), Some(b), Some(c)) => Some(Version(a, b, c))
      case _ => None
  }

  lemma VersionStringSplits(v: Version)
    ensures Split(IntToString(v.major) + "." + IntToString(v.minor) + "." + IntToString(v.patch), '.')
         == [IntToString(v.major), IntToString(v.minor), IntToString(v.patch)]
  {
    var a, b, c := IntToString(v.major), IntToString(v.minor), IntToString(v.patch);
    NoCharInInt(v.major, '.');
    NoCharInInt(v.minor, '.');
    NoCharInInt(v.patch, '.');
    SplitNoSep(c, '.');
    SplitFirst(b, '.', c);
    assert a + "." + b + "." + c == a + ['.'] + (b + ['.'] + c);
    SplitFirst(a, '.', b + ['.'] + c);
  }

  // ---------------------------------------------------------------------------
  // Events, priorities, dependencies, limits

  type EventType = string

  const EventPlayerJoin: EventType := "player_join"
  const EventPlayerQuit: EventType := "player_quit"
  const EventPlayerChat: EventType := "player_chat"
  const EventPlayerMove: EventType := "player_move"
  const EventPlayerTeleport: EventType := "player_teleport"
  const EventPlayerJump: EventType := "player_jump"
  const EventPlayerSprint: EventType := "player_sprint"
  const EventPlayerSneak: EventType := "player_sneak"
  const EventPlayerRespawn: EventType := "player_respawn"
  const EventPlayerDeath: EventType := "player_death"
  const EventPlayerHurt: EventType := "player_hurt"
  const EventPlayerHeal: EventType := "player_heal"
  const EventPlayerAttackEntity: EventType := "player_attack_entity"
  const EventBlockBreak: EventType := "block_break"
  const EventBlockPlace: EventType := "block_place"
  const EventBlockInteract: EventType := "block_interact"
  const EventItemUse: EventType := "item_use"
  const EventItemUseOnBlock: EventType := "item_use_on_block"
  const EventItemUseOnEntity: EventType := "item_use_on_entity"
  const EventItemConsume: EventType := "item_consume"
  const EventItemDrop: EventType := "item_drop"
  const EventItemPickup: EventType := "item_pickup"
  const EventEntitySpawn: EventType := "entity_spawn"
  const EventEntityDespawn: EventType := "entity_despawn"
  const EventCommand: EventType := "command"
  const EventSignEdit: EventType := "sign_edit"
  const EventServerTransfer: EventType := "server_transfer"

  type Priority = int

  const PriorityLowest: Priority := -200
  const PriorityLow: Priority := -100
  const PriorityNormal: Priority := 0
  const PriorityHigh: Priority := 100
  const PriorityHighest: Priority := 200
  const PriorityMonitor: Priority := 300

  datatype EventSubscription = EventSubscription(event: EventType, priority: Priority, ignoreCancelled: bool)

  datatype Dependency = Dependency(id: string, version: Version, optional: bool)

  /** Memory in MiB and execution time in ms are Go int64s; fuel is a uint64. */
  datatype ResourceLimits = ResourceLimits(maxMemoryMB: int, maxExecutionMs: int, maxFuel: nat)

  const DefaultResourceLimits: ResourceLimits := ResourceLimits(64, 100, 1_000_000)

  datatype Manifest = Manifest(
    id: string,
    name: string,
    version: Version,
    description: string,
    authors: seq<string>,
    website: string,
    license: string,
    apiVersion: Version,
    entryPoint: string,
    events: seq<EventSubscription>,
    dependencies: seq<Dependency>,
    limits: ResourceLimits,
    loadBefore: seq<string>,
    loadAfter: seq<string>)

  /** `SubscribedTo`: whether any subscription names the event. */
  function SubscribedTo(events: seq<EventSubscription>, e: EventType): (r: bool)
    ensures r <==> exists i :: 0 <= i < |events| && events[i].event == e
  {
    if |events| == 0 then false
    else if events[0].event == e then true
    else
      var r := SubscribedTo(events[1..], e);
      assert r ==> exists i :: 0 <= i < |events| && events[i].event == e by {
        if r {
          var i :| 0 <= i < |events[1..]| && events[1..][i].event == e;
          assert events[i + 1].event == e;
        }
      }
      assert (exists i :: 0 <= i < |events| && events[i].event == e) ==> r by {
        if exists i :: 0 <= i < |events| && events[i].event == e {
          var i :| 0 <= i < |events| && events[i].event == e;
          assert i > 0 && events[1..][i - 1].event == e;
        }
      }
      r
  }

  /** `i` is the position of the first subscription to `e`. */
  predicate FirstMatchAt(events: seq<EventSubscription>, e: EventType, i: int) {
    0 <= i < |events| && events[i].event == e && forall j :: 0 <= j < i ==> events[j].event != e
  }

  /** `GetEventPriority`: the priority of the first subscription to the event,
      or `PriorityNormal` when there is none. */
  function GetEventPriority(events: seq<EventSubscription>, e: EventType): (p: Priority)
    ensures (forall i :: 0 <= i < |events| ==> events[i].event != e) ==> p == PriorityNormal
    ensures forall i :: FirstMatchAt(events, e, i) ==> p == events[i].priority
  {
    if |events| == 0 then PriorityNormal
    else if events[0].event == e then events[0].priority
    else
      var p := GetEventPriority(events[1..], e);
      assert forall i :: FirstMatchAt(events, e, i) ==> p == events[i].priority by {
        forall i | FirstMatchAt(events, e, i) ensures p == events[i].priority {
          assert i > 0;
          assert events[1..][i - 1] == events[i];
          forall j | 0 <= j < i - 1 ensures events[1..][j].event != e { assert events[1..][j] == events[j + 1]; }
          assert FirstMatchAt(events[1..], e, i - 1);
        }
      }
      assert (forall i :: 0 <= i < |events| ==> events[i].event != e) ==> p == PriorityNormal by {
        if forall i :: 0 <= i < |events| ==> events[i].event != e {
          forall i | 0 <= i < |events[1..]| ensures events[1..][i].event != e { assert events[1..][i] == events[i + 1]; }
        }
      }
      p
  }

  // ---------------------------------------------------------------------------
  // The plugin-ID pattern ^[a-z][a-z0-9_]*(\.[a-z][a-z0-9_]*)+$

  predicate IsLowerLetter(c: char) {
    'a' <= c <= 'z'
  }

  predicate IsIdChar(c: char) {
    IsLowerLetter(c) || IsDigit(c) || c == '_'
  }

  predicate AllIdChars(s: string) {
    forall k :: 0 <= k < |s| ==> IsIdChar(s[k])
  }

  /** One dot-separated segment: [a-z][a-z0-9_]* */
  predicate IsSegment(s: string) {
    |s| > 0 && IsLowerLetter(s[0]) && AllIdChars(s[1..])
  }

  /** What the pattern means: at least two dot-separated segments. */
  predicate MatchesIdPattern(id: string) {
    var segs := Split(id, '.');
    |segs| >= 2 && forall k :: 0 <= k < |segs| ==> IsSegment(segs[k])
  }

  /** The states of a left-to-right scan of an ID. */
  datatype ScanState = ExpectFirst | InFirst | ExpectNext | InNext

  /** The hand-written matcher: a four-state scan, one character at a time. */
  function ScanId(q: ScanState, s: string): bool
    decreases |s|
  {
    if |s| == 0 then q == InNext
    else
      var c := s[0];
      match q
      case ExpectFirst => IsLowerLetter(c) && ScanId(InFirst, s[1..])
      case InFirst => if c == '.' then ScanId(ExpectNext, s[1..]) else IsIdChar(c) && ScanId(InFirst, s[1..])
      case ExpectNext => IsLowerLetter(c) && ScanId(InNext, s[1..])
      case InNext => if c == '.' then ScanId(ExpectNext, s[1..]) else IsIdChar(c) && ScanId(InNext, s[1..])
  }

  /** What a scan from each state accepts, in terms of the split pieces. */
  predicate ScanSpec(q: ScanState, s: string) {
    var segs := Split(s, '.');
    match q
    case ExpectFirst => |segs| >= 2 && forall k :: 0 <= k < |segs| ==> IsSegment(segs[k])
    case InFirst => |segs| >= 2 && AllIdChars(segs[0]) && forall k :: 1 <= k < |segs| ==> IsSegment(segs[k])
    case ExpectNext => forall k :: 0 <= k < |segs| ==> IsSegment(segs[k])
    case InNext => AllIdChars(segs[0]) && forall k :: 1 <= k < |segs| ==> IsSegment(segs[k])
  }

  lemma {:induction false} ScanCorrect(q: ScanState, s: string)
    ensures ScanId(q, s) == ScanSpec(q, s)
    decreases |s|
  {
    if |s| > 0 {
      var c := s[0];
      var rest := Split(s[1..], '.');
      var segs := Split(s, '.');
      ScanCorrect(InFirst, s[1..]);
      ScanCorrect(ExpectNext, s[1..]);
      ScanCorrect(InNext, s[1..]);
      if c == '.' {
        assert segs == [""] + rest;
        assert (forall k :: 0 <= k < |rest| ==> IsSegment(rest[k])) <==> forall k :: 1 <= k < |segs| ==> IsSegment(segs[k]) by {
          if forall k :: 0 <= k < |rest| ==> IsSegment(rest[k]) {
            forall k | 1 <= k < |segs| ensures IsSegment(segs[k]) { assert segs[k] == rest[k - 1]; }
          }
          if forall k :: 1 <= k < |segs| ==> IsSegment(segs[k]) {
            forall k | 0 <= k < |rest| ensures IsSegment(rest[k]) { assert segs[k + 1] == rest[k]; }
          }
        }
      } else {
        assert segs == [[c] + rest[0]] + rest[1..];
        assert segs[0] == [c] + rest[0];
        assert segs[0][1..] == rest[0];
        assert forall k :: 1 <= k < |segs| ==> segs[k] == rest[k];
        assert AllIdChars(segs[0]) <==> IsIdChar(c) && AllIdChars(rest[0]) by {
          if IsIdChar(c) && AllIdChars(rest[0]) {
            forall k | 0 <= k < |segs[0]| ensures IsIdChar(segs[0][k]) {
              if k > 0 { assert segs[0][k] == rest[0][k - 1]; }
            }
          }
          if AllIdChars(segs[0]) {
            assert IsIdChar(segs[0][0]);
            forall k | 0 <= k < |rest[0]| ensures IsIdChar(rest[0][k]) { assert rest[0][k] == segs[0][k + 1]; }
          }
        }
      }
    } else {
      var segs := Split(s, '.');
      assert segs == [""];
      assert !IsSegment(segs[0]) && AllIdChars(segs[0]);
    }
  }

  /** The scanner accepts exactly the IDs the pattern describes. */
  lemma ScanMatchesPattern(id: string)
    ensures ScanId(ExpectFirst, id) == MatchesIdPattern(id)
  {
    ScanCorrect(ExpectFirst, id);
  }

  function IsValidId(id: string): (r: bool)
    ensures r == MatchesIdPattern(id)
  {
    ScanMatchesPattern(id);
    ScanId(ExpectFirst, id)
  }

  // ---------------------------------------------------------------------------
  // Go's `%q`: `strconv.Quote`

  /** The letter of the one-letter escape Go writes for a control character. */
  function ControlLetter(c: char): Option<char> {
    if c == '\U{7}' then Some('a')
    else if c == '\U{8}' then Some('b')
    else if c == '\U{C}' then Some('f')
    else if c == '\n' then Some('n')
    else if c == '\r' then Some('r')
    else if c == '\t' then Some('t')
    else if c == '\U{B}' then Some('v')
    else None
  }

  /** The control character a one-letter escape stands for. */
  function ControlOf(e: char): Option<char> {
    if e == 'a' then Some('\U{7}')
    else if e == 'b' then Some('\U{8}')
    else if e == 'f' then Some('\U{C}')
    else if e == 'n' then Some('\n')
    else if e == 'r' then Some('\r')
    else if e == 't' then Some('\t')
    else if e == 'v' then Some('\U{B}')
    else None
  }

  /** The characters Go does not copy as they are: the quote, the backslash,
      the C0 controls, DEL and the C1 controls. */
  predicate NeedsEscape(c: char) {
    c == '"' || c == '\\' || c < ' ' || c == '\U{7F}' || ('\U{80}' <= c && c <= '\U{9F}')
  }

  function HexDigit(d: nat): char
    requires d < 16
  {
    "0123456789abcdef"[d]
  }

  function Pow16(w: nat): (r: nat)
    ensures r > 0
  {
    if w == 0 then 1 else 16 * Pow16(w - 1)
  }

  /** The low `w` hexadecimal digits of `n`, most significant first, in
      lower case as Go writes them. */
  function Hex(n: nat, w: nat): (r: string)
    ensures |r| == w
  {
    if w == 0 then "" else Hex(n / 16, w - 1) + [HexDigit(n % 16)]
  }

  /** `strconv.Quote`'s escape of one character: `\"` and `\\`, the
      one-letter escapes, `\xNN` for the other C0 controls and DEL, `\uNNNN`
      for the C1 controls; any other character is copied. */
  function QuoteChar(c: char): (r: string)
    ensures |r| > 0
    ensures r == [c] <==> !NeedsEscape(c)
  {
    if c == '"' || c == '\\' then ['\\', c]
    else if c < ' ' || c == '\U{7F}' then
      if ControlLetter(c).Some? then ['\\', ControlLetter(c).value] else "\\x" + Hex(c as int, 2)
    else if '\U{80}' <= c && c <= '\U{9F}' then "\\u" + Hex(c as int, 4)
    else [c]
  }

  function QuoteBody(s: string): (r: string)
    ensures |r| >= |s|
  {
    if s == [] then [] else QuoteChar(s[0]) + QuoteBody(s[1..])
  }

  /** `%q`: the string between double quotes, escaped as Go escapes it. */
  function Quote(s: string): (r: string)
    ensures |r| >= |s| + 2 && r[0] == '"' && r[|r| - 1] == '"'
  {
    "\"" + QuoteBody(s) + "\""
  }

  /** A string with nothing to escape is quoted as it is. */
  lemma {:induction false} QuotePlain(s: string)
    requires forall i :: 0 <= i < |s| ==> !NeedsEscape(s[i])
    ensures QuoteBody(s) == s
    ensures Quote(s) == "\"" + s + "\""
  {
    if s != [] {
      QuotePlain(s[1..]);
    }
  }

  /** The value of a hexadecimal digit. */
  function HexValue(d: char): Option<nat> {
    if '0' <= d && d <= '9' then Some(d as int - '0' as int)
    else if 'a' <= d && d <= 'f' then Some(d as int - 'a' as int + 10)
    else None
  }

  function ParseHex(s: string): Option<nat> {
    if s == [] then Some(0)
    else match (ParseHex(s[..|s| - 1]), HexValue(s[|s| - 1]))
      case (Some(high), Some(low)) => Some(high * 16 + low)
      case _ => None
  }

  lemma HexDigitValue(d: nat)
    requires d < 16
    ensures HexValue(HexDigit(d)) == Some(d)
  {
  }

  lemma {:induction false} ParseHexOf(n: nat, w: nat)
    requires n < Pow16(w)
    ensures ParseHex(Hex(n, w)) == Some(n)
  {
    if w > 0 {
      ParseHexOf(n / 16, w - 1);
      var h := Hex(n, w);
      assert h[..|h| - 1] == Hex(n / 16, w - 1);
      HexDigitValue(n % 16);
    }
  }

  function Prepend(c: char, rest: Option<string>): Option<string> {
    if rest.Some? then Some([c] + rest.value) else None
  }

  /** A code below 0xA0 as the character it names. */
  function SmallChar(n: nat): Option<char> {
    if n < 0xA0 then Some(n as char) else None
  }

  /** Reads back the inside of a quoted string: the inverse of `QuoteBody`. */
  function Unescape(s: string): (r: Option<string>)
    decreases |s|
  {
    if s == [] then Some([])
    else if s[0] != '\\' then Prepend(s[0], Unescape(s[1..]))
    else if |s| < 2 then None
    else if s[1] == '"' || s[1] == '\\' then Prepend(s[1], Unescape(s[2..]))
    else if ControlOf(s[1]).Some? then Prepend(ControlOf(s[1]).value, Unescape(s[2..]))
    else if s[1] == 'x' && |s| >= 4 && ParseHex(s[2..4]).Some? && SmallChar(ParseHex(s[2..4]).value).Some? then
      Prepend(SmallChar(ParseHex(s[2..4]).value).value, Unescape(s[4..]))
    else if s[1] == 'u' && |s| >= 6 && ParseHex(s[2..6]).Some? && SmallChar(ParseHex(s[2..6]).value).Some? then
      Prepend(SmallChar(ParseHex(s[2..6]).value).value, Unescape(s[6..]))
    else None
  }

  /** `\"`, `\\` and the one-letter escapes read back as their character. */
  lemma UnescapeTwo(c: char, e: char, rest: string)
    requires (e == c && (c == '"' || c == '\\')) || ControlOf(e) == Some(c)
    requires e != 'x' && e != 'u'
    ensures Unescape(['\\', e] + rest) == Prepend(c, Unescape(rest))
  {
    assert (['\\', e] + rest)[2..] == rest;
  }

  /** A `\xNN` or `\uNNNN` escape of a small code reads back as that character. */
  lemma UnescapeHex(c: char, e: char, w: nat, rest: string)
    requires (e == 'x' && w == 2) || (e == 'u' && w == 4)
    requires c as int < 0xA0 && ControlOf(e).None?
    ensures Unescape(['\\', e] + Hex(c as int, w) + rest) == Prepend(c, Unescape(rest))
  {
    var t := ['\\', e] + Hex(c as int, w) + rest;
    assert t[2..2 + w] == Hex(c as int, w) && t[2 + w..] == rest;
    ParseHexOf(c as int, w);
  }

  lemma ControlRoundTrip(c: char)
    requires ControlLetter(c).Some?
    ensures ControlOf(ControlLetter(c).value) == Some(c)
    ensures ControlLetter(c).value != 'x' && ControlLetter(c).value != 'u'
  {
  }

  /** One escaped character reads back as itself, whatever follows. */
  lemma UnescapeChar(c: char, rest: string)
    ensures Unescape(QuoteChar(c) + rest) == Prepend(c, Unescape(rest))
  {
    if c == '"' || c == '\\' {
      UnescapeTwo(c, c, rest);
    } else if c < ' ' || c == '\U{7F}' {
      if ControlLetter(c).Some? {
        ControlRoundTrip(c);
        UnescapeTwo(c, ControlLetter(c).value, rest);
      } else {
        UnescapeHex(c, 'x', 2, rest);
        assert QuoteChar(c) == ['\\', 'x'] + Hex(c as int, 2);
      }
    } else if '\U{80}' <= c && c <= '\U{9F}' {
      UnescapeHex(c, 'u', 4, rest);
      assert QuoteChar(c) == ['\\', 'u'] + Hex(c as int, 4);
    } else {
      assert ([c] + rest)[1..] == rest;
    }
  }

  /** Quoting loses nothing: the inside of `Quote(s)` reads back as `s`, so
      two different IDs never get the same message. */
  lemma {:induction false} UnescapeQuote(s: string)
    ensures Unescape(QuoteBody(s)) == Some(s)
  {
    if s != [] {
      UnescapeQuote(s[1..]);
      UnescapeChar(s[0], QuoteBody(s[1..]));
      assert [s[0]] + s[1..] == s;
    }
  }

  /** Go's message for an ID holding a quote: the quote is escaped. */
  lemma QuoteEscapesQuote()
    ensures Quote("a\"b") == "\"a\\\"b\""
  {
    assert QuoteBody("a\"b") == "a" + QuoteBody("\"b");
    assert QuoteBody("\"b") == "\\\"" + QuoteBody("b");
  }

  /** `Manifest.Validate`: the first failing check, in order; `Pass` when all hold. */
  function Validate(m: Manifest): (r: Outcome<string>)
    ensures r.Pass? <==> m.id != "" && MatchesIdPattern(m.id) && m.name != "" && m.entryPoint != ""
    ensures m.id == "" ==> r == Fail("plugin ID is required")
    ensures m.id != "" && !MatchesIdPattern(m.id) ==> r == Fail("invalid plugin ID " + Quote(m.id) + ": must be lowercase with dots")
    ensures MatchesIdPattern(m.id) && m.name == "" ==> r == Fail("plugin name is required")
    ensures MatchesIdPattern(m.id) && m.name != "" && m.entryPoint == "" ==> r == Fail("entry point is required")
  {
    if m.id == "" then Fail("plugin ID is required")
    else if !IsValidId(m.id) then Fail("invalid plugin ID " + Quote(m.id) + ": must be lowercase with dots")
    else if m.name == "" then Fail("plugin name is required")
    else if m.entryPoint == "" then Fail("entry point is required")
    else Pass
  }

  /** An ID the pattern accepts has a dot, starts with a letter and neither
      starts nor ends with a dot. */
  lemma ValidIdShape(id: string)
    requires MatchesIdPattern(id)
    ensures |id| >= 3 && IsLowerLetter(id[0]) && '.' in id && id[|id| - 1] != '.'
  {
    var segs := Split(id, '.');
    JoinSplit(id, '.');
    assert IsSegment(segs[0]) && IsSegment(segs[1]);
    JoinFacts(segs);
  }

  lemma {:induction false} JoinFacts(segs: seq<string>)
    requires |segs| >= 2 && forall k :: 0 <= k < |segs| ==> IsSegment(segs[k])
    ensures var j := Join(segs, '.'); |j| >= 3 && IsLowerLetter(j[0]) && '.' in j && j[|j| - 1] != '.'
    decreases |segs|
  {
    var j := Join(segs, '.');
    assert IsSegment(segs[0]) && IsSegment(segs[1]);
    assert j == segs[0] + ['.'] + Join(segs[1..], '.');
    assert j[|segs[0]|] == '.';
    if |segs| == 2 {
      assert Join(segs[1..], '.') == segs[1];
    } else {
      JoinFacts(segs[1..]);
    }
  }
}
