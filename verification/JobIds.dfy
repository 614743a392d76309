/**
 * The ids of queue jobs (src/bullmq/jobs.js:145-182, 585-653): which requests share one, and so are
 * merged. Names are texts of Unicode characters; bytes are those of UTF-8, section 3 of RFC 3629.
 */
module JobIds {
  import opened Wrappers
  import opened Text

  // ---- UTF-8

  type Byte = b: int | 0 <= b < 256

  predicate IsScalar(n: nat) {
    n < 0xD800 || 0xE000 <= n < 0x11_0000
  }

  function Utf8(c: char): (bytes: seq<Byte>)
    ensures 1 <= |bytes| <= 4
  {
    var n := c as nat;
    if n < 0x80 then [n]
    else if n < 0x800 then [0xC0 + n / 0x40, 0x80 + n % 0x40]
    else if n < 0x1_0000 then [0xE0 + n / 0x1000, 0x80 + n / 0x40 % 0x40, 0x80 + n % 0x40]
    else [0xF0 + n / 0x4_0000, 0x80 + n / 0x1000 % 0x40, 0x80 + n / 0x40 % 0x40, 0x80 + n % 0x40]
  }

  /** How many bytes a character has, by its first. */
  function Length(first: Byte): nat {
    if first < 0x80 then 1 else if first < 0xE0 then 2 else if first < 0xF0 then 3 else 4
  }

  /** What a byte carries beside its leading bits. */
  function Bits(b: Byte, lead: int): int {
    b as int - lead
  }

  function CodeOf(bytes: seq<Byte>): int {
    if |bytes| == 1 then bytes[0]
    else if |bytes| == 2 then Bits(bytes[0], 0xC0) * 0x40 + Bits(bytes[1], 0x80)
    else if |bytes| == 3 then Bits(bytes[0], 0xE0) * 0x1000 + Bits(bytes[1], 0x80) * 0x40 + Bits(bytes[2], 0x80)
    else if |bytes| == 4 then
      Bits(bytes[0], 0xF0) * 0x4_0000 + Bits(bytes[1], 0x80) * 0x1000 + Bits(bytes[2], 0x80) * 0x40 + Bits(bytes[3], 0x80)
    else -1
  }

  lemma Utf8RoundTrip(c: char)
    ensures CodeOf(Utf8(c)) == c as int && Length(Utf8(c)[0]) == |Utf8(c)|
  {
    var n := c as nat;
    assert n < 0x11_0000;
    assert n / 0x1000 == n / 0x4_0000 * 0x40 + n / 0x1000 % 0x40;
    assert n / 0x40 == n / 0x1000 * 0x40 + n / 0x40 % 0x40;
    assert n == n / 0x40 * 0x40 + n % 0x40;
  }

  // ---- Fragments

  const HEX := "0123456789ABCDEF"

  function HexValue(c: char): int {
    if '0' <= c <= '9' then c as int - '0' as int else if 'A' <= c <= 'F' then c as int - 'A' as int + 10 else -1
  }

  /** The characters that stand for themselves. */
  predicate Plain(c: char) {
    'A' <= c <= 'Z' || 'a' <= c <= 'z' || '0' <= c <= '9' || c == '.' || c == '_' || c == '-'
  }

  function HexByte(b: Byte): (s: string)
    ensures |s| == 3
  {
    ['~', HEX[b / 16], HEX[b % 16]]
  }

  function HexBytes(bytes: seq<Byte>): (s: string)
    ensures |s| == 3 * |bytes|
  {
    if bytes == [] then "" else HexByte(bytes[0]) + HexBytes(bytes[1..])
  }

  function Escaped(c: char): (s: string)
    ensures s != ""
  {
    if Plain(c) then [c] else HexBytes(Utf8(c))
  }

  /** A name as part of an id. */
  function Fragment(name: string): string {
    if name == "" then "" else Escaped(name[0]) + Fragment(name[1..])
  }

  lemma Assoc(a: string, b: string, c: string)
    ensures a + b + c == a + (b + c)
  {
  }

  method Encoded(c: char) returns (encoded: string)
    ensures encoded == HexBytes(Utf8(c))
  {
    var bytes := Utf8(c);
    encoded := "";
    for j := 0 to |bytes|
      invariant encoded + HexBytes(bytes[j..]) == HexBytes(bytes)
    {
      assert bytes[j..][1..] == bytes[j + 1..];
      Assoc(encoded, HexByte(bytes[j]), HexBytes(bytes[j + 1..]));
      encoded := encoded + HexByte(bytes[j]);
    }
  }

  /** The same, the way it is built: a text grows by one character's worth at a time. */
  method IdFragment(name: string) returns (out: string)
    ensures out == Fragment(name)
  {
    out := "";
    for i := 0 to |name|
      invariant out + Fragment(name[i..]) == Fragment(name)
    {
      var more := [name[i]];
      if !Plain(name[i]) { more := Encoded(name[i]); }
      assert name[i..][1..] == name[i + 1..];
      Assoc(out, more, Fragment(name[i + 1..]));
      out := out + more;
    }
  }

  // ---- Reading a fragment back

  function ByteAt(s: string): Option<Byte> {
    if |s| >= 3 && s[0] == '~' && HexValue(s[1]) >= 0 && HexValue(s[2]) >= 0
    then Some(HexValue(s[1]) * 16 + HexValue(s[2])) else None
  }

  function BytesAt(s: string, n: nat): Option<seq<Byte>> {
    if n == 0 then Some([])
    else if ByteAt(s).None? then None
    else
      var rest := BytesAt(s[3..], n - 1);
      if rest.None? then None else Some([ByteAt(s).value] + rest.value)
  }

  function CharOf(bytes: seq<Byte>): Option<char> {
    var n := CodeOf(bytes);
    if n >= 0 && IsScalar(n) then Some(n as char) else None
  }

  /** The name a fragment was made from. */
  function Name(s: string): Option<string>
    decreases |s|
  {
    if s == "" then Some("")
    else if Plain(s[0]) then
      var rest := Name(s[1..]);
      if rest.None? then None else Some([s[0]] + rest.value)
    else if ByteAt(s).None? then None
    else
      var n := Length(ByteAt(s).value);
      var bytes := BytesAt(s, n);
      if bytes.None? || CharOf(bytes.value).None? || |s| < 3 * n then None
      else
        var rest := Name(s[3 * n..]);
        if rest.None? then None else Some([CharOf(bytes.value).value] + rest.value)
  }

  lemma HexByteRoundTrip(b: Byte, rest: string)
    ensures ByteAt(HexByte(b) + rest) == Some(b)
  {
    assert forall d | 0 <= d < 16 :: HexValue(HEX[d]) == d;
    assert b / 16 < 16 && b == b / 16 * 16 + b % 16;
  }

  lemma {:induction false} BytesRoundTrip(bytes: seq<Byte>, rest: string)
    ensures BytesAt(HexBytes(bytes) + rest, |bytes|) == Some(bytes)
    decreases |bytes|
  {
    if bytes != [] {
      var more := HexBytes(bytes[1..]) + rest;
      assert HexBytes(bytes) + rest == HexByte(bytes[0]) + more;
      HexByteRoundTrip(bytes[0], more);
      assert (HexByte(bytes[0]) + more)[3..] == more;
      BytesRoundTrip(bytes[1..], rest);
      assert bytes == [bytes[0]] + bytes[1..];
    }
  }

  function Prepended(c: char, rest: Option<string>): Option<string> {
    if rest.None? then None else Some([c] + rest.value)
  }

  lemma PlainRoundTrip(c: char, rest: string)
    requires Plain(c)
    ensures Name([c] + rest) == Prepended(c, Name(rest))
  {
    assert ([c] + rest)[1..] == rest;
  }

  /** The bytes of an escaped character, as they are read. */
  lemma EscapeIsRead(c: char, rest: string)
    ensures
      var s, n := HexBytes(Utf8(c)) + rest, |Utf8(c)|;
      && |s| >= 3 * n && s[0] == '~' && s[3 * n..] == rest
      && ByteAt(s) == Some(Utf8(c)[0]) && Length(Utf8(c)[0]) == n && BytesAt(s, n) == Some(Utf8(c))
  {
    var bytes := Utf8(c);
    Utf8RoundTrip(c);
    BytesRoundTrip(bytes, rest);
    var tail := HexBytes(bytes[1..]) + rest;
    assert HexBytes(bytes) + rest == HexByte(bytes[0]) + tail;
    HexByteRoundTrip(bytes[0], tail);
  }

  lemma EscapedRoundTrip(c: char, rest: string)
    ensures Name(HexBytes(Utf8(c)) + rest) == Prepended(c, Name(rest))
  {
    EscapeIsRead(c, rest);
    Utf8RoundTrip(c);
    assert CharOf(Utf8(c)) == Some(c);
  }

  lemma EscapeRoundTrip(c: char, rest: string)
    ensures Name(Escaped(c) + rest) == Prepended(c, Name(rest))
  {
    if Plain(c) {
      PlainRoundTrip(c, rest);
    } else {
      EscapedRoundTrip(c, rest);
    }
  }

  /** Every name can be read back from its fragment. */
  lemma {:induction false} FragmentRoundTrip(name: string)
    ensures Name(Fragment(name)) == Some(name)
    decreases |name|
  {
    if name != "" {
      EscapeRoundTrip(name[0], Fragment(name[1..]));
      FragmentRoundTrip(name[1..]);
      assert name == [name[0]] + name[1..];
    }
  }

  /** So two names never share one. */
  lemma FragmentsAreInjective(a: string, b: string)
    ensures Fragment(a) == Fragment(b) <==> a == b
  {
    FragmentRoundTrip(a);
    FragmentRoundTrip(b);
  }

  lemma {:induction false} FragmentOfBoth(a: string, b: string)
    ensures Fragment(a + b) == Fragment(a) + Fragment(b)
    decreases |a|
  {
    if a == "" {
      assert a + b == b;
    } else {
      assert (a + b)[1..] == a[1..] + b;
      FragmentOfBoth(a[1..], b);
    }
  }

  lemma {:induction false} PlainIsItself(s: string)
    requires forall c <- s :: Plain(c)
    ensures Fragment(s) == s
    decreases |s|
  {
    if s != "" {
      PlainIsItself(s[1..]);
      assert s == [s[0]] + s[1..];
    }
  }

  /** Letters, digits, dots, underscores and dashes. */
  predicate StandsForItself(c: char) {
    'A' <= c <= 'Z' || 'a' <= c <= 'z' || '0' <= c <= '9' || c in "._-"
  }

  lemma {:induction false} HexBytesAreHex(bytes: seq<Byte>)
    ensures forall c <- HexBytes(bytes) :: c == '~' || c in HEX
    decreases |bytes|
  {
    if bytes != [] {
      HexBytesAreHex(bytes[1..]);
    }
  }

  /** A fragment is made of these and `~`, and is never shorter than its name. */
  lemma {:induction false} FragmentIsOfThese(name: string)
    ensures |Fragment(name)| >= |name| && forall c <- Fragment(name) :: StandsForItself(c) || c == '~'
    decreases |name|
  {
    if name != "" {
      FragmentIsOfThese(name[1..]);
      HexBytesAreHex(Utf8(name[0]));
    }
  }

  lemma EscapedFirst(c: char, rest: string)
    ensures Fragment([c] + rest) == Escaped(c) + Fragment(rest)
    ensures Plain(c) <==> StandsForItself(c)
  {
    assert ([c] + rest)[1..] == rest;
  }

  /** A name is its own fragment exactly if it is made of these alone. */
  lemma {:induction false} FragmentIsTheNameIff(name: string)
    ensures Fragment(name) == name <==> forall c <- name :: StandsForItself(c)
    decreases |name|
  {
    if name != "" {
      var c, rest := name[0], name[1..];
      FragmentIsTheNameIff(rest);
      assert name == [c] + rest;
      EscapedFirst(c, rest);
      if Plain(c) {
        SamePrefix([c], Fragment(rest), rest);
      } else {
        FragmentIsOfThese(rest);
        assert |Fragment(name)| > |name|;
      }
    }
  }

  // ---- Deduplication ids

  datatype Direction = Up | Down

  function Word(direction: Direction): string {
    if direction.Up? then "up" else "down"
  }

  function DedupId(direction: Direction, name: string, force: bool): string {
    Word(direction) + (if force then "~force" else "") + "-" + Fragment(name)
  }

  function ConvergeDedupId(after: Option<string>): string {
    if after.None? then "converge" else "converge-after-" + Fragment(after.value)
  }

  lemma SamePrefix(p: string, a: string, b: string)
    ensures p + a == p + b <==> a == b
  {
    assert (p + a)[|p|..] == a && (p + b)[|p|..] == b;
  }

  /** All of the id before the name. */
  function Opening(direction: Direction, force: bool): string {
    if direction.Up? then (if force then "up~force-" else "up-") else (if force then "down~force-" else "down-")
  }

  lemma DedupStart(direction: Direction, name: string, force: bool)
    ensures DedupId(direction, name, force) == Opening(direction, force) + Fragment(name)
  {
    assert Word(direction) + (if force then "~force" else "") + "-" == Opening(direction, force);
  }

  lemma OpeningsDiffer(d: Direction, force: bool, a: string, d': Direction, force': bool, a': string)
    requires Opening(d, force) + a == Opening(d', force') + a'
    ensures d == d' && force == force' && a == a'
  {
    var s, s' := Opening(d, force) + a, Opening(d', force') + a';
    assert s[0] == Opening(d, force)[0] && s'[0] == Opening(d', force')[0];
    var n := |Word(d)|;
    assert s[n] == Opening(d, force)[n] && s'[n] == Opening(d', force')[n];
    SamePrefix(Opening(d, force), a, a');
  }

  /** A request is merged only with one for the same file, in the same direction, as forced or not. */
  lemma DedupIdsAreInjective(d: Direction, name: string, force: bool, d': Direction, name': string, force': bool)
    ensures DedupId(d, name, force) == DedupId(d', name', force') <==> d == d' && name == name' && force == force'
  {
    DedupStart(d, name, force);
    DedupStart(d', name', force');
    FragmentsAreInjective(name, name');
    if DedupId(d, name, force) == DedupId(d', name', force') {
      OpeningsDiffer(d, force, Fragment(name), d', force', Fragment(name'));
    }
  }

  /** Nor with a converge. */
  lemma DedupIdsAreNotConverges(d: Direction, name: string, force: bool, after: Option<string>)
    ensures DedupId(d, name, force) != ConvergeDedupId(after)
  {
    DedupStart(d, name, force);
    assert (Opening(d, force) + Fragment(name))[0] == Opening(d, force)[0];
    assert ConvergeDedupId(after)[0] == 'c';
  }

  /** Converges after different migrations stay apart, and from the one after none. */
  lemma ConvergeIdsAreInjective(after: Option<string>, after': Option<string>)
    ensures ConvergeDedupId(after) == ConvergeDedupId(after') <==> after == after'
  {
    if after.Some? && after'.Some? {
      SamePrefix("converge-after-", Fragment(after.value), Fragment(after'.value));
      FragmentsAreInjective(after.value, after'.value);
    }
  }

  // ---- Coordinators and lanes

  function CoordinatorId(name: string, takeoverOf: Option<nat>): string {
    if takeoverOf.None? then "bg-" + Fragment(name) else "bg-" + Fragment(name) + Round(takeoverOf.value)
  }

  lemma {:induction false} DecIsPlain(n: nat)
    ensures forall c <- Dec(n) :: Plain(c)
  {
  }

  lemma FragmentWithEnd(name: string, end: string)
    requires forall c <- end :: Plain(c)
    ensures Fragment(name + end) == Fragment(name) + end
  {
    FragmentOfBoth(name, end);
    PlainIsItself(end);
  }

  lemma SuffixIsInjective(a: string, tag: char, n: nat, a': string, n': nat)
    requires !IsDigit(tag) && a + ['-', tag] + Dec(n) == a' + ['-', tag] + Dec(n')
    ensures a == a' && n == n'
  {
    assert a + ['-', tag] + Dec(n) == (a + "-") + [tag] + Dec(n);
    assert a' + ['-', tag] + Dec(n') == (a' + "-") + [tag] + Dec(n');
    NumberedIsInjective(a + "-", tag, n, a' + "-", n');
    assert a == (a + "-")[..|a|] && a' == (a' + "-")[..|a'|];
  }

  /** What a takeover appends. */
  function Round(round: nat): (s: string)
    ensures forall c <- s :: Plain(c)
  {
    DecIsPlain(round);
    "-t" + Dec(round)
  }

  /** The name a coordinator's id reads as. */
  function ReadAs(name: string, takeoverOf: Option<nat>): string {
    if takeoverOf.None? then name else name + Round(takeoverOf.value)
  }

  lemma PlainCoordinator(name: string, round: Option<nat>)
    ensures CoordinatorId(name, round) == "bg-" + Fragment(ReadAs(name, round))
  {
    if round.Some? {
      FragmentWithEnd(name, Round(round.value));
      Assoc("bg-", Fragment(name), Round(round.value));
    }
  }

  lemma TakeoversReadApart(name: string, round: nat, name': string, round': nat)
    requires name + Round(round) == name' + Round(round')
    ensures name == name' && round == round'
  {
    Assoc(name, ['-', 't'], Dec(round));
    Assoc(name', ['-', 't'], Dec(round'));
    assert Round(round) == ['-', 't'] + Dec(round) && Round(round') == ['-', 't'] + Dec(round');
    SuffixIsInjective(name, 't', round, name', round');
  }

  /**
   * Coordinators are merged exactly when their names, with a takeover's `-t<round>` appended, are the
   * same: two plain requests or two takeovers only if they are one and the same, but a takeover also
   * merges with the coordinator of a migration that happens to be named so.
   */
  lemma CoordinatorsMergeIff(name: string, round: Option<nat>, name': string, round': Option<nat>)
    ensures CoordinatorId(name, round) == CoordinatorId(name', round') <==> ReadAs(name, round) == ReadAs(name', round')
    ensures round.Some? == round'.Some? ==>
              (CoordinatorId(name, round) == CoordinatorId(name', round') <==> name == name' && round == round')
  {
    PlainCoordinator(name, round);
    PlainCoordinator(name', round');
    var a, b := ReadAs(name, round), ReadAs(name', round');
    SamePrefix("bg-", Fragment(a), Fragment(b));
    FragmentsAreInjective(a, b);
    if round.Some? && round'.Some? && a == b {
      TakeoversReadApart(name, round.value, name', round'.value);
    }
  }

  /**
   * A takeover never merges with a plain request for a migration whose name does not end in a digit — as
   * the names listed for an order do, each with its file extension.
   */
  lemma NoTakeoverMergesWithout(name: string, round: nat, name': string)
    requires name' == "" || !IsDigit(name'[|name'| - 1])
    ensures CoordinatorId(name, Some(round)) != CoordinatorId(name', None)
  {
    CoordinatorsMergeIff(name, Some(round), name', None);
    var taken := ReadAs(name, Some(round));
    assert taken == name + ("-t" + Dec(round)) && taken[|taken| - 1] == Dec(round)[|Dec(round)| - 1];
    assert Dec(round)[|Dec(round)| - 1] in Dec(round);
  }

  /** A takeover and a plain request, for a single file asked for without extension, under one id. */
  lemma ATakeoverCanMerge()
    ensures CoordinatorId("x", Some(5)) == CoordinatorId("x-t5", None)
  {
    CoordinatorsMergeIff("x", Some(5), "x-t5", None);
    assert Dec(5) == "5";
    assert "x" + "-t5" == "x-t5";
  }

  datatype Lane = Lane(migration: string, registration: string, generation: nat, round: nat, spawn: nat, lane: nat)

  function LaneBase(l: Lane): string {
    "bgl-" + Fragment(l.migration) + "-" + Fragment(l.registration) + "-g" + Dec(l.generation)
  }

  /** The job id of a lane under a coordinator. */
  function LaneJobId(l: Lane): string {
    LaneBase(l) + "-r" + Dec(l.round) + "-s" + Dec(l.spawn) + "-l" + Dec(l.lane)
  }

  /** The deduplication id of a lane with no parent. */
  function LaneDedupId(l: Lane): string {
    LaneBase(l) + "-l" + Dec(l.lane)
  }

  /** Both names of a lane, as the id reads. */
  function Names(l: Lane): string {
    l.migration + "-" + l.registration
  }

  lemma BaseIsFragment(l: Lane)
    ensures LaneBase(l) == "bgl-" + Fragment(Names(l)) + "-g" + Dec(l.generation)
  {
    FragmentOfBoth(l.migration + "-", l.registration);
    FragmentOfBoth(l.migration, "-");
    PlainIsItself("-");
    assert "bgl-" + Fragment(l.migration) + "-" + Fragment(l.registration) ==
           "bgl-" + (Fragment(l.migration) + "-" + Fragment(l.registration));
  }

  lemma BasesAreEqualIff(l: Lane, l': Lane)
    ensures LaneBase(l) == LaneBase(l') <==> Names(l) == Names(l') && l.generation == l'.generation
  {
    BaseIsFragment(l);
    BaseIsFragment(l');
    var a, a' := "bgl-" + Fragment(Names(l)), "bgl-" + Fragment(Names(l'));
    if LaneBase(l) == LaneBase(l') {
      SuffixIsInjective(a, 'g', l.generation, a', l'.generation);
      SamePrefix("bgl-", Fragment(Names(l)), Fragment(Names(l')));
      FragmentsAreInjective(Names(l), Names(l'));
    }
  }

  /** Registrations of one length: the names can be told apart. */
  lemma NamesOfOneLength(l: Lane, l': Lane)
    requires |l.registration| == |l'.registration| && Names(l) == Names(l')
    ensures l.migration == l'.migration && l.registration == l'.registration
  {
    var n := |Names(l)| - |l.registration| - 1;
    assert l.migration == Names(l)[..n] && l'.migration == Names(l')[..n];
    assert l.registration == Names(l)[n + 1..] && l'.registration == Names(l')[n + 1..];
  }

  /**
   * Lane job ids are equal exactly if all numbers are and the two names joined by `-` are — so, with
   * registrations of one length, only for one and the same lane of the same spawn.
   */
  lemma LaneJobIdsAreEqualIff(l: Lane, l': Lane)
    ensures LaneJobId(l) == LaneJobId(l') <==>
              Names(l) == Names(l') && (l.generation, l.round, l.spawn, l.lane) == (l'.generation, l'.round, l'.spawn, l'.lane)
    ensures |l.registration| == |l'.registration| ==> (LaneJobId(l) == LaneJobId(l') <==> l == l')
  {
    BasesAreEqualIff(l, l');
    if LaneJobId(l) == LaneJobId(l') {
      var b, b' := LaneBase(l) + "-r" + Dec(l.round), LaneBase(l') + "-r" + Dec(l'.round);
      SuffixIsInjective(b + "-s" + Dec(l.spawn), 'l', l.lane, b' + "-s" + Dec(l'.spawn), l'.lane);
      SuffixIsInjective(b, 's', l.spawn, b', l'.spawn);
      SuffixIsInjective(LaneBase(l), 'r', l.round, LaneBase(l'), l'.round);
    }
    if |l.registration| == |l'.registration| && Names(l) == Names(l') {
      NamesOfOneLength(l, l');
    }
  }

  /** One per lane slot, where there is no parent: neither round nor spawn is part of it. */
  lemma LaneDedupIdsAreEqualIff(l: Lane, l': Lane)
    ensures LaneDedupId(l) == LaneDedupId(l') <==>
              Names(l) == Names(l') && l.generation == l'.generation && l.lane == l'.lane
  {
    BasesAreEqualIff(l, l');
    if LaneDedupId(l) == LaneDedupId(l') {
      SuffixIsInjective(LaneBase(l), 'l', l.lane, LaneBase(l'), l'.lane);
    }
  }
}
