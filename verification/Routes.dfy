/** The addresses of the GUI's pages: how a page is written as a path, and read back from one. */
module Routes {
  import opened Wrappers

  // ---------------------------------------------------------------------------------------------
  // Percent encoding of a path segment: section 19.2.6 of ECMA-262, section 2.1 of RFC 3986
  // ---------------------------------------------------------------------------------------------

  /** Characters that stand for themselves. */
  predicate Unescaped(c: char) {
    || 'A' <= c <= 'Z' || 'a' <= c <= 'z' || '0' <= c <= '9'
    || c == '-' || c == '_' || c == '.' || c == '!' || c == '~' || c == '*' || c == '\'' || c == '(' || c == ')'
  }

  type Octet = x: int | 0 <= x < 256

  function HexDigit(d: int): char
    requires 0 <= d < 16
  { if d < 10 then (48 + d) as char else (55 + d) as char }

  function HexValue(c: char): Option<int> {
    if '0' <= c <= '9' then Some(c as int - 48)
    else if 'A' <= c <= 'F' then Some(c as int - 55)
    else if 'a' <= c <= 'f' then Some(c as int - 87)
    else None
  }

  function EncodeOctet(b: Octet): string { ['%', HexDigit(b / 16), HexDigit(b % 16)] }

  /** The octet written at the start. */
  function ReadOctet(s: string): Option<int> {
    if |s| < 3 || s[0] != '%' then None
    else
      match (HexValue(s[1]), HexValue(s[2]))
      case (Some(h), Some(l)) => Some(16 * h + l)
      case _ => None
  }

  /** The octets of a character in UTF-8. */
  function Utf8(c: char): seq<Octet> {
    var v := c as int;
    if v < 0x80 then [v]
    else if v < 0x800 then [0xC0 + v / 64, 0x80 + v % 64]
    else if v < 0x1_0000 then [0xE0 + v / 4096, 0x80 + v / 64 % 64, 0x80 + v % 64]
    else [0xF0 + v / 262144, 0x80 + v / 4096 % 64, 0x80 + v / 64 % 64, 0x80 + v % 64]
  }

  function EncodeOctets(bytes: seq<Octet>): string {
    if bytes == [] then "" else EncodeOctet(bytes[0]) + EncodeOctets(bytes[1..])
  }

  function EncodeChar(c: char): string { if Unescaped(c) then [c] else EncodeOctets(Utf8(c)) }

  function Encode(s: string): string { if s == "" then "" else EncodeChar(s[0]) + Encode(s[1..]) }

  /** How many octets a character has whose first one this is; 0 if there is none. */
  function OctetCount(first: int): int {
    if 0xC0 <= first < 0xE0 then 2 else if 0xE0 <= first < 0xF0 then 3 else if 0xF0 <= first < 0xF8 then 4 else 0
  }

  /** The bits of the value that the first octet has. */
  function Lead(first: int): int {
    if OctetCount(first) == 2 then first - 0xC0 else if OctetCount(first) == 3 then first - 0xE0 else first - 0xF0
  }

  function Continuation(s: string): Option<int> {
    match ReadOctet(s)
    case Some(b) => if 0x80 <= b < 0xC0 then Some(b - 0x80) else None
    case None => None
  }

  /** The value of the character written at the start, with `more` octets of it to come. */
  function ReadRest(s: string, value: int, more: nat): Option<int>
    decreases more
  {
    if more == 0 then Some(value)
    else
      match Continuation(s)
      case Some(bits) => ReadRest(s[3..], value * 64 + bits, more - 1)
      case None => None
  }

  /** The value is a character, and could not have been written with fewer octets. */
  predicate Proper(value: int, octets: int) {
    && (octets == 2 ==> 0x80 <= value) && (octets == 3 ==> 0x800 <= value) && (octets == 4 ==> 0x1_0000 <= value)
    && (0 <= value < 0xD800 || 0xE000 <= value < 0x11_0000)
  }

  /** The character written at the start, and how long it is. */
  function ReadChar(s: string): (r: Option<(char, nat)>)
    requires s != ""
    ensures r.Some? ==> 0 < r.value.1 <= |s|
  {
    if s[0] != '%' then Some((s[0], 1))
    else
      match ReadOctet(s)
      case None => None
      case Some(b) =>
        if b < 0x80 then Some((b as char, 3))
        else
          var n := OctetCount(b);
          if n == 0 || |s| < 3 * n then None
          else
            match ReadRest(s[3..], Lead(b), n - 1)
            case Some(v) => if Proper(v, n) then Some((v as char, 3 * n)) else None
            case None => None
  }

  /** What a segment stands for; nothing if it is malformed. */
  function Decode(s: string): Option<string>
    decreases |s|
  {
    if s == "" then Some("")
    else
      match ReadChar(s)
      case None => None
      case Some((c, length)) =>
        match Decode(s[length..])
        case None => None
        case Some(rest) => Some([c] + rest)
  }

  lemma HexRoundTrip(d: int)
    requires 0 <= d < 16
    ensures HexValue(HexDigit(d)) == Some(d)
  {}

  lemma OctetRoundTrip(b: Octet, rest: string)
    ensures ReadOctet(EncodeOctet(b) + rest) == Some(b) && (EncodeOctet(b) + rest)[3..] == rest
  {
    HexRoundTrip(b / 16);
    HexRoundTrip(b % 16);
    assert (EncodeOctet(b) + rest)[1] == HexDigit(b / 16) && (EncodeOctet(b) + rest)[2] == HexDigit(b % 16);
  }

  lemma ContinuationReads(b: Octet, rest: string, value: int, more: nat)
    requires 0x80 <= b < 0xC0 && more > 0
    ensures ReadRest(EncodeOctet(b) + rest, value, more) == ReadRest(rest, value * 64 + b - 0x80, more - 1)
  {
    OctetRoundTrip(b, rest);
  }

  lemma TwoRead(a: Octet, b: Octet, rest: string, value: int)
    requires 0x80 <= a < 0xC0 && 0x80 <= b < 0xC0
    ensures ReadRest(EncodeOctet(a) + EncodeOctet(b) + rest, value, 2) == Some((value * 64 + a - 0x80) * 64 + b - 0x80)
  {
    assert EncodeOctet(a) + EncodeOctet(b) + rest == EncodeOctet(a) + (EncodeOctet(b) + rest);
    ContinuationReads(a, EncodeOctet(b) + rest, value, 2);
    ContinuationReads(b, rest, value * 64 + a - 0x80, 1);
  }

  lemma ThreeRead(a: Octet, b: Octet, c: Octet, rest: string, value: int)
    requires 0x80 <= a < 0xC0 && 0x80 <= b < 0xC0 && 0x80 <= c < 0xC0
    ensures ReadRest(EncodeOctet(a) + EncodeOctet(b) + EncodeOctet(c) + rest, value, 3)
      == Some(((value * 64 + a - 0x80) * 64 + b - 0x80) * 64 + c - 0x80)
  {
    assert EncodeOctet(a) + EncodeOctet(b) + EncodeOctet(c) + rest == EncodeOctet(a) + (EncodeOctet(b) + EncodeOctet(c) + rest);
    ContinuationReads(a, EncodeOctet(b) + EncodeOctet(c) + rest, value, 3);
    TwoRead(b, c, rest, value * 64 + a - 0x80);
  }

  lemma OctetsAre(bytes: seq<Octet>)
    ensures |bytes| == 1 ==> EncodeOctets(bytes) == EncodeOctet(bytes[0])
    ensures |bytes| == 2 ==> EncodeOctets(bytes) == EncodeOctet(bytes[0]) + EncodeOctet(bytes[1])
    ensures |bytes| == 3 ==> EncodeOctets(bytes) == EncodeOctet(bytes[0]) + (EncodeOctet(bytes[1]) + EncodeOctet(bytes[2]))
    ensures |bytes| == 4 ==>
      EncodeOctets(bytes) == EncodeOctet(bytes[0]) + (EncodeOctet(bytes[1]) + EncodeOctet(bytes[2]) + EncodeOctet(bytes[3]))
  {
    if |bytes| > 1 {
      OctetsAre(bytes[1..]);
    }
  }

  /** A character is read back from its octets, whatever follows. */
  lemma CharRoundTrip(c: char, rest: string)
    ensures EncodeChar(c) != "" && ReadChar(EncodeChar(c) + rest) == Some((c, |EncodeChar(c)|))
  {
    if c as int >= 0x80 {
      WideCharRoundTrip(c, rest);
    } else if !Unescaped(c) {
      assert EncodeChar(c) == EncodeOctet(c as int) by {
        OctetsAre(Utf8(c));
      }
      OctetRoundTrip(c as int, rest);
    }
  }

  lemma WideCharRoundTrip(c: char, rest: string)
    requires c as int >= 0x80
    ensures EncodeChar(c) != "" && ReadChar(EncodeChar(c) + rest) == Some((c, |EncodeChar(c)|))
  {
    var bytes := Utf8(c);
    var tail := EncodeOctets(bytes[1..]) + rest;
    LeadCounts(c);
    assert EncodeOctets(bytes) == EncodeOctet(bytes[0]) + EncodeOctets(bytes[1..]);
    assert EncodeChar(c) + rest == EncodeOctet(bytes[0]) + tail;
    OctetRoundTrip(bytes[0], tail);
    assert (EncodeChar(c) + rest)[0] == '%';
    hide Utf8, EncodeOctets, EncodeOctet, ReadRest, EncodeChar, ReadOctet, Lead;
    TailRoundTrip(c, rest);
  }

  lemma LeadCounts(c: char)
    requires c as int >= 0x80
    ensures |Utf8(c)| == OctetCount(Utf8(c)[0]) && Proper(c as int, |Utf8(c)|) && |EncodeOctets(Utf8(c))| == 3 * |Utf8(c)|
    ensures Utf8(c)[0] >= 0x80
  {
    OctetsAre(Utf8(c));
  }

  lemma LeadIs(c: char)
    requires c as int >= 0x80
    ensures var v := c as int;
      Lead(Utf8(c)[0]) == if v < 0x800 then v / 64 else if v < 0x1_0000 then v / 4096 else v / 262144
  {}

  lemma TailRoundTrip(c: char, rest: string)
    requires c as int >= 0x80
    ensures ReadRest(EncodeOctets(Utf8(c)[1..]) + rest, Lead(Utf8(c)[0]), |Utf8(c)| - 1) == Some(c as int)
  {
    var v := c as int;
    OctetsAre(Utf8(c)[1..]);
    LeadIs(c);
    hide EncodeOctets, EncodeOctet, ReadRest, Lead;
    if v < 0x800 {
      assert Utf8(c)[1..] == [0x80 + v % 64];
      TailOfTwo(v, rest);
    } else if v < 0x1_0000 {
      assert Utf8(c)[1..] == [0x80 + v / 64 % 64, 0x80 + v % 64];
      TailOfThree(v, rest);
    } else {
      assert Utf8(c)[1..] == [0x80 + v / 4096 % 64, 0x80 + v / 64 % 64, 0x80 + v % 64];
      TailOfFour(v, rest);
    }
  }

  lemma TailOfTwo(v: int, rest: string)
    requires 0 <= v
    ensures ReadRest(EncodeOctet(0x80 + v % 64) + rest, v / 64, 1) == Some(v)
  {
    ContinuationReads(0x80 + v % 64, rest, v / 64, 1);
    SixBits(v);
  }

  lemma TailOfThree(v: int, rest: string)
    requires 0 <= v
    ensures ReadRest(EncodeOctet(0x80 + v / 64 % 64) + EncodeOctet(0x80 + v % 64) + rest, v / 4096, 2) == Some(v)
  {
    hide ReadRest, EncodeOctet;
    TwoRead(0x80 + v / 64 % 64, 0x80 + v % 64, rest, v / 4096);
    SixBits(v);
  }

  lemma TailOfFour(v: int, rest: string)
    requires 0 <= v
    ensures ReadRest(EncodeOctet(0x80 + v / 4096 % 64) + (EncodeOctet(0x80 + v / 64 % 64) + EncodeOctet(0x80 + v % 64)) + rest,
                     v / 262144, 3) == Some(v)
  {
    hide ReadRest, EncodeOctet;
    ThreeRead(0x80 + v / 4096 % 64, 0x80 + v / 64 % 64, 0x80 + v % 64, rest, v / 262144);
    assert EncodeOctet(0x80 + v / 4096 % 64) + (EncodeOctet(0x80 + v / 64 % 64) + EncodeOctet(0x80 + v % 64)) + rest
      == EncodeOctet(0x80 + v / 4096 % 64) + EncodeOctet(0x80 + v / 64 % 64) + EncodeOctet(0x80 + v % 64) + rest;
    SixBits(v);
  }

  lemma SixBits(v: int)
    requires 0 <= v
    ensures v == v / 64 * 64 + v % 64
    ensures v == (v / 4096 * 64 + v / 64 % 64) * 64 + v % 64
    ensures v == ((v / 262144 * 64 + v / 4096 % 64) * 64 + v / 64 % 64) * 64 + v % 64
  {
    assert v / 4096 == v / 64 / 64;
    assert v / 262144 == v / 4096 / 64;
    SixBitsOnce(v);
    SixBitsOnce(v / 64);
    SixBitsOnce(v / 4096);
  }

  lemma SixBitsOnce(v: int)
    ensures v == v / 64 * 64 + v % 64
  {}

  /** Whatever the text, what is encoded is decoded again. */
  lemma {:induction false} EncodingRoundTrip(s: string)
    ensures Decode(Encode(s)) == Some(s) && (s != "" ==> Encode(s) != "")
  {
    if s != "" {
      var first, rest := EncodeChar(s[0]), Encode(s[1..]);
      CharRoundTrip(s[0], rest);
      EncodingRoundTrip(s[1..]);
      assert (first + rest)[|first|..] == rest;
      assert s == [s[0]] + s[1..];
    }
  }

  /** What is encoded can stand in a path: it has no slash, no question mark and no number sign. */
  lemma {:induction false} EncodingIsSafe(s: string)
    ensures forall i | 0 <= i < |Encode(s)| :: Unescaped(Encode(s)[i]) || Encode(s)[i] == '%'
  {
    if s != "" {
      EncodingIsSafe(s[1..]);
      OctetsAreSafe(Utf8(s[0]));
    }
  }

  lemma {:induction false} OctetsAreSafe(bytes: seq<Octet>)
    ensures forall i | 0 <= i < |EncodeOctets(bytes)| :: Unescaped(EncodeOctets(bytes)[i]) || EncodeOctets(bytes)[i] == '%'
  {
    if bytes != [] {
      OctetsAreSafe(bytes[1..]);
    }
  }

  lemma {:induction false} UnescapedStay(s: string)
    requires forall i | 0 <= i < |s| :: Unescaped(s[i])
    ensures Encode(s) == s
  {
    if s != "" {
      UnescapedStay(s[1..]);
      assert s == [s[0]] + s[1..];
    }
  }

  // ---------------------------------------------------------------------------------------------
  // Paths
  // ---------------------------------------------------------------------------------------------

  function NonEmpty(s: string): seq<string> { if s == "" then [] else [s] }

  /** The segments between the slashes, without the empty ones; `current` is the one being read. */
  function Pieces(s: string, current: string): seq<string> {
    if s == "" then NonEmpty(current)
    else if s[0] == '/' then NonEmpty(current) + Pieces(s[1..], "")
    else Pieces(s[1..], current + [s[0]])
  }

  function Join(segments: seq<string>): string {
    if segments == [] then "" else ['/'] + segments[0] + Join(segments[1..])
  }

  lemma {:induction false} PiecesReadOn(segment: string, rest: string, current: string)
    requires NoSlash(segment)
    ensures Pieces(segment + rest, current) == Pieces(rest, current + segment)
  {
    if segment == "" {
      assert segment + rest == rest && current + segment == current;
    } else {
      assert (segment + rest)[1..] == segment[1..] + rest;
      PiecesReadOn(segment[1..], rest, current + [segment[0]]);
      assert current + [segment[0]] + segment[1..] == current + segment;
    }
  }

  /** What is joined comes apart again, without the segments that are empty. */
  lemma {:induction false} JoinComesApart(segments: seq<string>, current: string)
    requires forall k | 0 <= k < |segments| :: NoSlash(segments[k])
    ensures Pieces(Join(segments), current) == NonEmpty(current) + WithoutEmpty(segments)
    ensures current == "" ==> Pieces(Join(segments), current) == WithoutEmpty(segments)
  {
    if segments != [] {
      var first, rest := segments[0], Join(segments[1..]);
      assert ['/'] + first + rest == ['/'] + (first + rest);
      assert (['/'] + (first + rest))[1..] == first + rest;
      PiecesReadOn(first, rest, "");
      assert "" + first == first;
      JoinComesApart(segments[1..], first);
      assert NonEmpty(current) + (NonEmpty(first) + WithoutEmpty(segments[1..])) == NonEmpty(current) + WithoutEmpty(segments);
    }
  }

  function WithoutEmpty(segments: seq<string>): seq<string> {
    if segments == [] then [] else NonEmpty(segments[0]) + WithoutEmpty(segments[1..])
  }

  function EncodeAll(segments: seq<string>): seq<string> {
    if segments == [] then [] else [Encode(segments[0])] + EncodeAll(segments[1..])
  }

  function DecodeAll(segments: seq<string>): Option<seq<string>> {
    if segments == [] then Some([])
    else
      match (Decode(segments[0]), DecodeAll(segments[1..]))
      case (Some(first), Some(rest)) => Some([first] + rest)
      case _ => None
  }

  lemma {:induction false} EncodedSegments(segments: seq<string>)
    ensures DecodeAll(EncodeAll(segments)) == Some(segments)
    ensures forall k | 0 <= k < |EncodeAll(segments)| :: NoSlash(EncodeAll(segments)[k])
  {
    hide Encode, Decode, NoSlash;
    if segments != [] {
      EncodedSegments(segments[1..]);
      EncodingRoundTrip(segments[0]);
      EncodedHasNoSlash(segments[0]);
      assert EncodeAll(segments)[1..] == EncodeAll(segments[1..]);
      assert segments == [segments[0]] + segments[1..];
    }
  }

  predicate NoSlash(s: string) { forall i | 0 <= i < |s| :: s[i] != '/' }

  lemma EncodedHasNoSlash(s: string)
    ensures NoSlash(Encode(s))
  {
    EncodingIsSafe(s);
  }

  lemma {:induction false} EmptyStaysEmpty(segments: seq<string>)
    ensures WithoutEmpty(EncodeAll(segments)) == EncodeAll(WithoutEmpty(segments))
  {
    hide Encode;
    if segments != [] {
      var first, rest := segments[0], segments[1..];
      EmptyStaysEmpty(rest);
      EncodingRoundTrip(first);
      EncodingOfEmpty();
      assert EncodeAll(segments)[1..] == EncodeAll(rest);
      assert WithoutEmpty(EncodeAll(segments)) == NonEmpty(Encode(first)) + WithoutEmpty(EncodeAll(rest));
      if first == "" {
        assert WithoutEmpty(segments) == [] + WithoutEmpty(rest) == WithoutEmpty(rest);
      } else {
        assert WithoutEmpty(segments) == [first] + WithoutEmpty(rest);
        assert ([first] + WithoutEmpty(rest))[1..] == WithoutEmpty(rest);
        assert EncodeAll([first] + WithoutEmpty(rest)) == [Encode(first)] + EncodeAll(WithoutEmpty(rest));
      }
    }
  }

  lemma EncodingOfEmpty()
    ensures Encode("") == ""
  {}

  /** A path of encoded segments is read back as the segments, without the empty ones. */
  lemma PathRoundTrip(segments: seq<string>)
    ensures DecodeAll(Pieces(Join(EncodeAll(segments)), "")) == Some(WithoutEmpty(segments))
  {
    hide *;
    EncodedSegments(segments);
    JoinComesApart(EncodeAll(segments), "");
    EmptyStaysEmpty(segments);
    EncodedSegments(WithoutEmpty(segments));
  }

  // ---------------------------------------------------------------------------------------------
  // Routes
  // ---------------------------------------------------------------------------------------------

  /** The words that paths are made of. */
  datatype Word = Projects | Repositories | Templates | UserPackages | Unity | Operations | Logs | Extensions | Settings | About
                | Packages | Backups | Ui

  function Spell(w: Word): string {
    match w
    case Projects => "projects"
    case Repositories => "repositories"
    case Templates => "templates"
    case UserPackages => "user-packages"
    case Unity => "unity"
    case Operations => "operations"
    case Logs => "logs"
    case Extensions => "extensions"
    case Settings => "settings"
    case About => "about"
    case Packages => "packages"
    case Backups => "backups"
    case Ui => "ui"
  }

  const WORDS := [Projects, Repositories, Templates, UserPackages, Unity, Operations, Logs, Extensions, Settings, About,
                  Packages, Backups, Ui]

  /** Which of the words this is, if any. */
  function WordOf(s: string, from: nat): Option<Word>
    requires from <= |WORDS|
    decreases |WORDS| - from
  {
    if from == |WORDS| then None else if s == Spell(WORDS[from]) then Some(WORDS[from]) else WordOf(s, from + 1)
  }

  lemma WordsDiffer(a: Word, b: Word)
    requires Spell(a) == Spell(b)
    ensures a == b
  {
    assert |Spell(a)| == |Spell(b)| && Spell(a)[0] == Spell(b)[0] && Spell(a)[1] == Spell(b)[1];
  }

  function Index(w: Word): (k: nat)
    ensures k < |WORDS| && WORDS[k] == w
  {
    match w
    case Projects => 0 case Repositories => 1 case Templates => 2 case UserPackages => 3 case Unity => 4 case Operations => 5
    case Logs => 6 case Extensions => 7 case Settings => 8 case About => 9 case Packages => 10 case Backups => 11 case Ui => 12
  }

  lemma WordIsFound(w: Word)
    ensures WordOf(Spell(w), 0) == Some(w)
  {
    WordIsFoundFrom(w, Index(w), 0);
  }

  lemma {:induction false} WordIsFoundFrom(w: Word, k: nat, from: nat)
    requires from <= k < |WORDS| && WORDS[k] == w
    ensures WordOf(Spell(w), from) == Some(w)
    decreases k - from
  {
    hide Spell;
    if Spell(w) == Spell(WORDS[from]) {
      WordsDiffer(w, WORDS[from]);
    } else {
      WordIsFoundFrom(w, k, from + 1);
    }
  }

  lemma WordsAreUnescaped(w: Word)
    ensures Encode(Spell(w)) == Spell(w) && Spell(w) != ""
  {
    hide Encode, Unescaped;
    LettersAreUnescaped();
    WordsAreOfLetters(w);
    hide Spell;
    assert forall i | 0 <= i < |Spell(w)| :: Spell(w)[i] in Spell(w);
    UnescapedStay(Spell(w));
  }

  lemma LettersAreUnescaped()
    ensures forall c: char | 'a' <= c <= 'z' || c == '-' :: Unescaped(c)
  {}

  lemma WordsAreOfLetters(w: Word)
    ensures Spell(w) != "" && forall c | c in Spell(w) :: 'a' <= c <= 'z' || c == '-'
  {}

  datatype Route =
    | ProjectsPage | ProjectDetail(id: string) | ProjectPackages(id: string) | ProjectUnity(id: string, afterMigrationOpen: bool)
    | ProjectBackups(id: string) | RepositoriesPage | RepositoryDetail(id: string) | TemplatesPage | UserPackagesPage | UnityPage
    | BackupDetail(id: string) | OperationsPage | LogsPage | OperationDetail(id: string) | ExtensionsPage | ExtensionDetail(id: string)
    | ExtensionUi(id: string) | SettingsPage | AboutPage | NotFound

  function PageOf(w: Option<Word>): Route {
    match w
    case Some(Projects) => ProjectsPage
    case Some(Repositories) => RepositoriesPage
    case Some(Templates) => TemplatesPage
    case Some(UserPackages) => UserPackagesPage
    case Some(Unity) => UnityPage
    case Some(Operations) => OperationsPage
    case Some(Logs) => LogsPage
    case Some(Extensions) => ExtensionsPage
    case Some(Settings) => SettingsPage
    case Some(About) => AboutPage
    case _ => NotFound
  }

  function DetailOf(w: Option<Word>, id: string): Route {
    match w
    case Some(Projects) => ProjectDetail(id)
    case Some(Repositories) => RepositoryDetail(id)
    case Some(Backups) => BackupDetail(id)
    case Some(Operations) => OperationDetail(id)
    case Some(Extensions) => ExtensionDetail(id)
    case _ => NotFound
  }

  function PartOf(w: Option<Word>, id: string, u: Option<Word>, afterMigrationOpen: bool): Route {
    match (w, u)
    case (Some(Projects), Some(Packages)) => ProjectPackages(id)
    case (Some(Projects), Some(Unity)) => ProjectUnity(id, afterMigrationOpen)
    case (Some(Projects), Some(Backups)) => ProjectBackups(id)
    case (Some(Extensions), Some(Ui)) => ExtensionUi(id)
    case _ => NotFound
  }

  /** The route that decoded segments stand for. */
  function RouteOf(segments: seq<string>, afterMigrationOpen: bool): Route {
    if segments == [] then ProjectsPage
    else if |segments| == 1 then PageOf(WordOf(segments[0], 0))
    else if |segments| == 2 then DetailOf(WordOf(segments[0], 0), segments[1])
    else if |segments| == 3 then PartOf(WordOf(segments[0], 0), segments[1], WordOf(segments[2], 0), afterMigrationOpen)
    else NotFound
  }

  /** The names and values of a query. */
  type Query = seq<(string, string)>

  const AFTER_MIGRATION := "afterMigration"
  const OPEN := "open"

  function Get(query: Query, name: string): Option<string> {
    if query == [] then None else if query[0].0 == name then Some(query[0].1) else Get(query[1..], name)
  }

  /** The route of an address; none if the path is malformed. */
  function ReadRoute(path: string, query: Query): Option<Route> {
    match DecodeAll(Pieces(path, ""))
    case Some(segments) => Some(RouteOf(segments, Get(query, AFTER_MIGRATION) == Some(OPEN)))
    case None => None
  }

  function Slash(w: Word): string { ['/'] + Spell(w) }

  function SlashId(id: string): string { ['/'] + Encode(id) }

  /** The path of a route. A route that was not found keeps the path it was read from. */
  function Path(route: Route, current: string): string {
    match route
    case ProjectsPage => Slash(Projects)
    case ProjectDetail(id) => Slash(Projects) + SlashId(id)
    case ProjectPackages(id) => Slash(Projects) + SlashId(id) + Slash(Packages)
    case ProjectUnity(id, _) => Slash(Projects) + SlashId(id) + Slash(Unity)
    case ProjectBackups(id) => Slash(Projects) + SlashId(id) + Slash(Backups)
    case RepositoriesPage => Slash(Repositories)
    case RepositoryDetail(id) => Slash(Repositories) + SlashId(id)
    case TemplatesPage => Slash(Templates)
    case UserPackagesPage => Slash(UserPackages)
    case UnityPage => Slash(Unity)
    case BackupDetail(id) => Slash(Backups) + SlashId(id)
    case OperationsPage => Slash(Operations)
    case LogsPage => Slash(Logs)
    case OperationDetail(id) => Slash(Operations) + SlashId(id)
    case ExtensionsPage => Slash(Extensions)
    case ExtensionDetail(id) => Slash(Extensions) + SlashId(id)
    case ExtensionUi(id) => Slash(Extensions) + SlashId(id) + Slash(Ui)
    case SettingsPage => Slash(Settings)
    case AboutPage => Slash(About)
    case NotFound => current
  }

  function QueryOf(route: Route): Query {
    if route.ProjectUnity? && route.afterMigrationOpen then [(AFTER_MIGRATION, OPEN)] else []
  }

  /** The segments of a route, before they are encoded. */
  function Segments(route: Route): seq<string> {
    match route
    case ProjectsPage => [Spell(Projects)]
    case ProjectDetail(id) => [Spell(Projects), id]
    case ProjectPackages(id) => [Spell(Projects), id, Spell(Packages)]
    case ProjectUnity(id, _) => [Spell(Projects), id, Spell(Unity)]
    case ProjectBackups(id) => [Spell(Projects), id, Spell(Backups)]
    case RepositoriesPage => [Spell(Repositories)]
    case RepositoryDetail(id) => [Spell(Repositories), id]
    case TemplatesPage => [Spell(Templates)]
    case UserPackagesPage => [Spell(UserPackages)]
    case UnityPage => [Spell(Unity)]
    case BackupDetail(id) => [Spell(Backups), id]
    case OperationsPage => [Spell(Operations)]
    case LogsPage => [Spell(Logs)]
    case OperationDetail(id) => [Spell(Operations), id]
    case ExtensionsPage => [Spell(Extensions)]
    case ExtensionDetail(id) => [Spell(Extensions), id]
    case ExtensionUi(id) => [Spell(Extensions), id, Spell(Ui)]
    case SettingsPage => [Spell(Settings)]
    case AboutPage => [Spell(About)]
    case NotFound => []
  }

  lemma JoinOfOne(w: Word)
    ensures Join(EncodeAll([Spell(w)])) == Slash(w)
  {
    WordsAreUnescaped(w);
    hide Spell, Encode;
    assert EncodeAll([Spell(w)]) == [Spell(w)] by {
      assert [Spell(w)][1..] == [];
    }
    assert Join([Spell(w)]) == ['/'] + Spell(w) + "" by {
      assert [Spell(w)][1..] == [];
    }
  }

  lemma JoinOfMore(first: string, rest: seq<string>)
    ensures Join(EncodeAll([first] + rest)) == ['/'] + Encode(first) + Join(EncodeAll(rest))
  {
    assert ([first] + rest)[1..] == rest;
    assert ([Encode(first)] + EncodeAll(rest))[1..] == EncodeAll(rest);
  }

  lemma JoinOfTwo(w: Word, id: string)
    ensures Join(EncodeAll([Spell(w), id])) == Slash(w) + SlashId(id)
  {
    WordsAreUnescaped(w);
    hide Spell, Encode;
    JoinOfMore(Spell(w), [id]);
    JoinOfMore(id, []);
    assert [Spell(w)] + [id] == [Spell(w), id] && [id] + [] == [id];
    assert Join(EncodeAll([])) == "";
    assert ['/'] + Encode(id) + "" == SlashId(id);
  }

  lemma JoinOfThree(w: Word, id: string, u: Word)
    ensures Join(EncodeAll([Spell(w), id, Spell(u)])) == Slash(w) + SlashId(id) + Slash(u)
  {
    WordsAreUnescaped(w);
    JoinOfOne(u);
    hide Spell, Encode;
    JoinOfMore(Spell(w), [id, Spell(u)]);
    JoinOfMore(id, [Spell(u)]);
    assert [Spell(w)] + [id, Spell(u)] == [Spell(w), id, Spell(u)] && [id] + [Spell(u)] == [id, Spell(u)];
    assert Slash(w) + (SlashId(id) + Slash(u)) == Slash(w) + SlashId(id) + Slash(u);
  }

  /** The path of a route is its segments, encoded and joined. */
  lemma PathJoinsSegments(route: Route, current: string)
    requires !route.NotFound?
    ensures Path(route, current) == Join(EncodeAll(Segments(route)))
  {
    hide Spell, Encode, Join, EncodeAll, Slash, SlashId;
    match route
    case ProjectsPage => JoinOfOne(Projects);
    case ProjectDetail(id) => JoinOfTwo(Projects, id);
    case ProjectPackages(id) => JoinOfThree(Projects, id, Packages);
    case ProjectUnity(id, _) => JoinOfThree(Projects, id, Unity);
    case ProjectBackups(id) => JoinOfThree(Projects, id, Backups);
    case RepositoriesPage => JoinOfOne(Repositories);
    case RepositoryDetail(id) => JoinOfTwo(Repositories, id);
    case TemplatesPage => JoinOfOne(Templates);
    case UserPackagesPage => JoinOfOne(UserPackages);
    case UnityPage => JoinOfOne(Unity);
    case BackupDetail(id) => JoinOfTwo(Backups, id);
    case OperationsPage => JoinOfOne(Operations);
    case LogsPage => JoinOfOne(Logs);
    case OperationDetail(id) => JoinOfTwo(Operations, id);
    case ExtensionsPage => JoinOfOne(Extensions);
    case ExtensionDetail(id) => JoinOfTwo(Extensions, id);
    case ExtensionUi(id) => JoinOfThree(Extensions, id, Ui);
    case SettingsPage => JoinOfOne(Settings);
    case AboutPage => JoinOfOne(About);
  }

  predicate HasId(route: Route) {
    || route.ProjectDetail? || route.ProjectPackages? || route.ProjectUnity? || route.ProjectBackups? || route.RepositoryDetail?
    || route.BackupDetail? || route.OperationDetail? || route.ExtensionDetail? || route.ExtensionUi?
  }

  /** A route whose identifier, if it has one, is not empty. */
  predicate Named(route: Route) { HasId(route) ==> route.id != "" }

  lemma SegmentsAreRead(route: Route)
    requires !route.NotFound? && Named(route)
    ensures WithoutEmpty(Segments(route)) == Segments(route)
    ensures RouteOf(Segments(route), route.ProjectUnity? && route.afterMigrationOpen) == route
  {
    AllWordsAreFound();
    hide Spell, WordOf, RouteOf;
    assert forall k | 0 <= k < |Segments(route)| :: Segments(route)[k] != "";
    NothingEmpty(Segments(route));
    RouteOfSegments(route);
  }

  lemma RouteOfSegments(route: Route)
    requires !route.NotFound?
    ensures RouteOf(Segments(route), route.ProjectUnity? && route.afterMigrationOpen) == route
  {
    AllWordsAreFound();
    hide Spell, WordOf;
  }

  lemma AllWordsAreFound()
    ensures forall w: Word :: WordOf(Spell(w), 0) == Some(w) && Spell(w) != ""
  {
    forall w: Word
      ensures WordOf(Spell(w), 0) == Some(w) && Spell(w) != ""
    {
      WordIsFound(w);
      WordsAreUnescaped(w);
    }
  }

  lemma {:induction false} NothingEmpty(segments: seq<string>)
    requires forall k | 0 <= k < |segments| :: segments[k] != ""
    ensures WithoutEmpty(segments) == segments
  {
    if segments != [] {
      NothingEmpty(segments[1..]);
      assert segments == [segments[0]] + segments[1..];
    }
  }

  lemma QueryIsRead(route: Route)
    ensures (Get(QueryOf(route), AFTER_MIGRATION) == Some(OPEN)) == (route.ProjectUnity? && route.afterMigrationOpen)
  {}

  /** A route without an identifier is another one: the empty segment is not there when the path is read. */
  lemma UnnamedIsAnother(route: Route, open: bool)
    requires HasId(route) && route.id == ""
    ensures RouteOf(WithoutEmpty(Segments(route)), open) != route
  {
    AllWordsAreFound();
    hide Spell, WordOf, RouteOf;
    var first := Segments(route)[0];
    var rest := Segments(route)[2..];
    assert Segments(route) == [first, ""] + rest;
    MiddleIsDropped(first, rest);
    NothingEmpty(rest);
    ShortRouteHasItsId([first] + rest, open);
  }

  lemma ShortRouteHasItsId(segments: seq<string>, open: bool)
    requires 1 <= |segments| <= 2
    ensures HasId(RouteOf(segments, open)) ==> |segments| == 2 && RouteOf(segments, open).id == segments[1]
  {
    hide WordOf;
  }

  lemma MiddleIsDropped(first: string, rest: seq<string>)
    requires first != ""
    ensures WithoutEmpty([first, ""] + rest) == [first] + WithoutEmpty(rest)
  {
    var all := [first, ""] + rest;
    assert all[1..] == [""] + rest && ([""] + rest)[1..] == rest;
    assert WithoutEmpty([""] + rest) == [] + WithoutEmpty(rest);
  }

  /** Whatever characters an identifier has, a route is read back from its path and query; exactly those with an
      empty identifier are not. */
  lemma RouteRoundTrip(route: Route, current: string)
    requires !route.NotFound?
    ensures ReadRoute(Path(route, current), QueryOf(route)) == Some(route) <==> Named(route)
  {
    hide Spell, WordOf, Encode, Decode, Pieces, Join, EncodeAll, DecodeAll, Segments, RouteOf, Path, QueryOf, Get;
    PathJoinsSegments(route, current);
    PathRoundTrip(Segments(route));
    QueryIsRead(route);
    if Named(route) {
      SegmentsAreRead(route);
    } else {
      UnnamedIsAnother(route, Get(QueryOf(route), AFTER_MIGRATION) == Some(OPEN));
    }
  }

  // ---------------------------------------------------------------------------------------------
  // Every path
  // ---------------------------------------------------------------------------------------------

  lemma {:induction false} WordIsSpelled(s: string, from: nat)
    requires from <= |WORDS|
    ensures WordOf(s, from).Some? ==> Spell(WordOf(s, from).value) == s
    decreases |WORDS| - from
  {
    hide Spell;
    if from < |WORDS| && Spell(WORDS[from]) != s {
      WordIsSpelled(s, from + 1);
    }
  }

  /** What is read as a route is what that route is written as, but for the empty path, which is the projects. */
  lemma ReadIsWritten(segments: seq<string>, open: bool)
    requires segments != [] && !RouteOf(segments, open).NotFound?
    ensures Segments(RouteOf(segments, open)) == segments
    ensures RouteOf(segments, open).ProjectUnity? ==> RouteOf(segments, open).afterMigrationOpen == open
  {
    hide Spell, WordOf, Segments;
    if |segments| == 1 {
      WordIsRead(segments[0], open);
      assert segments == [segments[0]];
    } else if |segments| == 2 {
      PairIsRead(segments[0], segments[1], open);
      assert segments == [segments[0], segments[1]];
    } else if |segments| == 3 {
      TripleIsRead(segments[0], segments[1], segments[2], open);
      assert segments == [segments[0], segments[1], segments[2]];
    }
  }

  lemma WordIsRead(s: string, open: bool)
    ensures var route := RouteOf([s], open); !route.NotFound? ==> Segments(route) == [s] && !route.ProjectUnity?
  {
    hide Spell, WordOf;
    WordIsSpelled(s, 0);
    PageIsWritten(WordOf(s, 0));
    hide PageOf, Segments;
  }

  lemma PageIsWritten(w: Option<Word>)
    ensures !PageOf(w).NotFound? ==> w.Some? && Segments(PageOf(w)) == [Spell(w.value)] && !PageOf(w).ProjectUnity?
  {
    hide Spell;
  }

  lemma PairIsRead(s: string, id: string, open: bool)
    ensures var route := RouteOf([s, id], open); !route.NotFound? ==> Segments(route) == [s, id] && !route.ProjectUnity?
  {
    hide Spell, WordOf;
    WordIsSpelled(s, 0);
  }

  lemma TripleIsRead(s: string, id: string, t: string, open: bool)
    ensures var route := RouteOf([s, id, t], open);
      !route.NotFound? ==> Segments(route) == [s, id, t] && (route.ProjectUnity? ==> route.afterMigrationOpen == open)
  {
    hide Spell, WordOf;
    WordIsSpelled(s, 0);
    WordIsSpelled(t, 0);
    PartIsWritten(WordOf(s, 0), id, WordOf(t, 0), open);
    hide PartOf, Segments;
  }

  lemma PartIsWritten(w: Option<Word>, id: string, u: Option<Word>, open: bool)
    ensures var route := PartOf(w, id, u, open);
      !route.NotFound? ==>
        && w.Some? && u.Some? && Segments(route) == [Spell(w.value), id, Spell(u.value)]
        && (route.ProjectUnity? ==> route.afterMigrationOpen == open)
  {
    hide Spell;
  }

  /** Over every path: without segments it is the projects page, and it is not found if, and only if, it has some, and no
      route is written with them. */
  lemma NotFoundWhen(segments: seq<string>, open: bool)
    ensures segments == [] ==> RouteOf(segments, open) == ProjectsPage
    ensures RouteOf(segments, open).NotFound? <==> segments != [] && forall route: Route | !route.NotFound? :: Segments(route) != segments
  {
    if segments != [] && !RouteOf(segments, open).NotFound? {
      ReadIsWritten(segments, open);
    }
    forall route: Route | !route.NotFound? && Segments(route) == segments
      ensures !RouteOf(segments, open).NotFound?
    {
      RouteOfSegments(route);
      QueryChangesNothingElse(segments, open, route.ProjectUnity? && route.afterMigrationOpen);
    }
    hide Segments;
  }

  lemma QueryChangesNothingElse(segments: seq<string>, open: bool, open': bool)
    ensures RouteOf(segments, open).NotFound? <==> RouteOf(segments, open').NotFound?
  {
    hide WordOf;
  }

  /** The bare address is the projects page. */
  lemma RootIsProjects(query: Query)
    ensures ReadRoute("/", query) == Some(ProjectsPage) && ReadRoute("", query) == Some(ProjectsPage)
  {
    assert Pieces("/", "") == NonEmpty("") + Pieces("", "") == [];
  }

  // ---------------------------------------------------------------------------------------------
  // Comparing routes by their addresses
  // ---------------------------------------------------------------------------------------------

  const QUERY_TEXT := "?afterMigration=open"

  /** The address of a route as one text, which is what routes are compared by. */
  function Address(route: Route, current: string): string {
    Path(route, current) + if route.ProjectUnity? && route.afterMigrationOpen then QUERY_TEXT else ""
  }

  predicate NoQuery(s: string) { forall i | 0 <= i < |s| :: s[i] != '?' }

  lemma {:induction false} JoinHasNoQuery(segments: seq<string>)
    ensures NoQuery(Join(EncodeAll(segments)))
  {
    if segments != [] {
      EncodingIsSafe(segments[0]);
      JoinHasNoQuery(segments[1..]);
      assert EncodeAll(segments)[1..] == EncodeAll(segments[1..]);
    }
  }

  /** Where a segment ends is where the rest, if there is one, begins with a slash; so another cannot go on longer. */
  lemma NoLonger(first: string, rest: string, first': string, rest': string)
    requires NoSlash(first') && first + rest == first' + rest' && (rest == "" || rest[0] == '/')
    ensures |first'| <= |first|
  {
    var joined := first + rest;
    assert |first| < |joined| ==> joined[|first|] == '/';
    assert NoSlash(joined[..|first'|]) by {
      assert joined[..|first'|] == first';
    }
  }

  lemma FirstSegmentTells(first: string, rest: string, first': string, rest': string)
    requires NoSlash(first) && NoSlash(first') && first + rest == first' + rest'
    requires (rest == "" || rest[0] == '/') && (rest' == "" || rest'[0] == '/')
    ensures first == first' && rest == rest'
  {
    NoLonger(first, rest, first', rest');
    NoLonger(first', rest', first, rest);
    assert (first + rest)[..|first|] == first && (first' + rest')[..|first|] == first';
    assert (first + rest)[|first|..] == rest && (first' + rest')[|first|..] == rest';
  }

  /** Nothing is lost in joining, not even that a segment is empty. */
  lemma {:induction false} JoinTells(segments: seq<string>, segments': seq<string>)
    requires forall k | 0 <= k < |segments| :: NoSlash(segments[k])
    requires forall k | 0 <= k < |segments'| :: NoSlash(segments'[k])
    requires Join(segments) == Join(segments')
    ensures segments == segments'
  {
    if segments != [] && segments' != [] {
      var rest, rest' := Join(segments[1..]), Join(segments'[1..]);
      assert Join(segments)[1..] == segments[0] + rest && Join(segments')[1..] == segments'[0] + rest';
      FirstSegmentTells(segments[0], rest, segments'[0], rest');
      hide NoSlash;
      JoinTells(segments[1..], segments'[1..]);
      assert segments == [segments[0]] + segments[1..] && segments' == [segments'[0]] + segments'[1..];
    }
  }

  /** Routes are the same when their addresses are, so comparing addresses compares routes, whatever characters an
      identifier has and even if it is empty. */
  lemma AddressesTellRoutes(a: Route, b: Route, current: string)
    requires !a.NotFound? && !b.NotFound?
    ensures Address(a, current) == Address(b, current) <==> a == b
  {
    if Address(a, current) == Address(b, current) {
      PathJoinsSegments(a, current);
      PathJoinsSegments(b, current);
      JoinHasNoQuery(Segments(a));
      JoinHasNoQuery(Segments(b));
      EncodedSegments(Segments(a));
      EncodedSegments(Segments(b));
      RouteOfSegments(a);
      RouteOfSegments(b);
      hide Join, EncodeAll, DecodeAll, Segments, RouteOf, Path;
      SuffixTells(Path(a, current), a.ProjectUnity? && a.afterMigrationOpen, Path(b, current), b.ProjectUnity? && b.afterMigrationOpen);
      JoinTells(EncodeAll(Segments(a)), EncodeAll(Segments(b)));
    }
  }

  lemma SuffixTells(p: string, open: bool, q: string, open': bool)
    requires NoQuery(p) && NoQuery(q)
    requires p + (if open then QUERY_TEXT else "") == q + if open' then QUERY_TEXT else ""
    ensures p == q && open == open'
  {
    var s, t := p + if open then QUERY_TEXT else "", q + if open' then QUERY_TEXT else "";
    assert |QUERY_TEXT| > 0 && QUERY_TEXT[0] == '?';
    assert open ==> s[|p|] == '?';
    assert open' ==> t[|q|] == '?';
    assert s[..|p|] == p && t[..|q|] == q;
    assert open == open' by {
      assert !open ==> s == p;
      assert !open' ==> t == q;
    }
  }
}
