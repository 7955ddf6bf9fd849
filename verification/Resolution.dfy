/**
 Tenant identifiers in internal URLs: a UUID in any spelling Python's parser
 takes, or else a slug. The two overlap, and the UUID wins.
 */
module Resolution {
  import opened Prelude
  import opened Naming
  import opened Database

  predicate IsSlugEnd(c: char) {
    'a' <= c <= 'z' || '0' <= c <= '9'
  }

  predicate IsSlugChar(c: char) {
    IsSlugEnd(c) || c == '-'
  }

  predicate IsSlugText(s: string) {
    forall i :: 0 <= i < |s| ==> IsSlugChar(s[i])
  }

  /** A path segment, decoded: any printable ASCII text. */
  type Identifier = s: string | forall i :: 0 <= i < |s| ==> ' ' <= s[i] <= '~'

  /** The pattern a new tenant's slug must match. */
  predicate IsTenantSlug(s: string) {
    3 <= |s| <= 50 && IsSlugEnd(s[0]) && IsSlugEnd(s[|s| - 1]) && IsSlugText(s)
  }

  const RESERVED: set<string> := {"api", "internal", "health", "metrics"}

  /** The slugs the edge routes. */
  predicate EdgeAccepts(s: string) {
    s !in RESERVED && 2 <= |s| && IsSlugEnd(s[0]) && IsSlugEnd(s[|s| - 1]) && IsSlugText(s)
  }

  function WithoutHyphens(s: string): string {
    if s == "" then "" else (if s[0] == '-' then "" else [s[0]]) + WithoutHyphens(s[1..])
  }

  /** str.replace(part, ""). */
  function Without(s: string, part: string): string
    requires part != ""
  {
    if |s| < |part| then s
    else if s[..|part|] == part then Without(s[|part|..], part)
    else [s[0]] + Without(s[1..], part)
  }

  function LeftTrimmed(s: string, drop: set<char>): string {
    if s != "" && s[0] in drop then LeftTrimmed(s[1..], drop) else s
  }

  /** str.strip. */
  function Trimmed(s: string, drop: set<char>): string {
    RightTrimmed(LeftTrimmed(s, drop), drop)
  }

  function RightTrimmed(s: string, drop: set<char>): string {
    if s != "" && s[|s| - 1] in drop then RightTrimmed(s[..|s| - 1], drop) else s
  }

  predicate IsAnyHexDigit(c: char) {
    IsHexDigit(c) || 'A' <= c <= 'F'
  }

  function Lower(c: char): char {
    if 'A' <= c <= 'F' then c - 'A' + 'a' else c
  }

  /** Hex digits in either case, with single underscores between them. */
  function Digits(s: string): (r: Option<string>)
    ensures r.Some? ==> |r.value| <= |s| && IsHex(r.value)
  {
    if s == "" || !IsAnyHexDigit(s[0]) then None
    else if |s| == 1 then Some([Lower(s[0])])
    else
      match Digits(if s[1] == '_' then s[2..] else s[1..])
      case None => None
      case Some(rest) => Some([Lower(s[0])] + rest)
  }

  /** What follows the optional 0x, which an underscore may follow. */
  function Unprefixed(s: string): (r: string)
    ensures |r| <= |s|
  {
    if |s| >= 2 && s[0] == '0' && s[1] in {'x', 'X'} then
      if |s| >= 3 && s[2] == '_' then s[3..] else s[2..]
    else s
  }

  /** The digits int(s, 16) reads, without blanks around, plus sign and prefix. No hyphen is left to be a sign. */
  function IntDigits(s: string): (r: Option<string>)
    ensures r.Some? ==> |r.value| <= |s| && IsHex(r.value)
  {
    TrimmedIsShorter(s, {' '});
    var body := Trimmed(s, {' '});
    Digits(Unprefixed(if body != "" && body[0] == '+' then body[1..] else body))
  }

  function Zeros(n: nat): (r: string)
    ensures |r| == n && IsHex(r)
  {
    seq(n, _ => '0')
  }

  /** Without marks, braces around, and hyphens. */
  function Cleaned(s: string): string {
    WithoutHyphens(Trimmed(Without(Without(s, "urn:"), "uuid:"), {'{', '}'}))
  }

  /** uuid.UUID(s): what is left after cleaning must be 32 characters that read as a base-16 number. */
  function ParseUuid(s: Identifier): Option<Uuid> {
    var hex := Cleaned(s);
    if |hex| != 32 then None
    else
      match IntDigits(hex)
      case None => None
      case Some(digits) => Some(Zeros(32 - |digits|) + digits)
  }

  lemma {:induction false} TrimmedIsShorter(s: string, drop: set<char>)
    ensures |Trimmed(s, drop)| <= |s|
    decreases |s|
  {
    if s != "" && s[0] in drop {
      TrimmedIsShorter(s[1..], drop);
    } else {
      RightTrimmedIsShorter(s, drop);
    }
  }

  lemma {:induction false} RightTrimmedIsShorter(s: string, drop: set<char>)
    ensures |RightTrimmed(s, drop)| <= |s|
    decreases |s|
  {
    if s != "" && s[|s| - 1] in drop {
      RightTrimmedIsShorter(s[..|s| - 1], drop);
    }
  }

  ghost function Resolve(db: Db, s: Identifier): Result<Uuid> {
    match ParseUuid(s)
    case Some(u) => Ok(u)
    case None =>
      if SlugInUse(db, s) then
        var t :| t in db.tenants && db.tenants[t].slug == s;
        Ok(t)
      else Err(TenantNotFound)
  }

  method ResolveTenantId(session: Session, s: Identifier) returns (r: Result<Uuid>)
    ensures r.Err? ==> r.error in {TenantNotFound, MultipleResults, DatabaseError}
    ensures r == Err(MultipleResults) ==> !Sound(session.db)
    ensures r.Ok? || r == Err(TenantNotFound) ==> r == Resolve(session.db, s)
    ensures ParseUuid(s).Some? ==> r == Ok(ParseUuid(s).value)
    ensures session.reliable ==> r != Err(DatabaseError)
  {
    var parsed := ParseUuid(s);
    if parsed.Some? {
      return Ok(parsed.value);
    }
    var ok := session.Await();
    if !ok {
      return Err(DatabaseError);
    }
    var rows := Enumerate(set t | t in session.db.tenants && session.db.tenants[t].slug == s);
    if |rows| == 0 {
      assert forall t :: t in session.db.tenants && session.db.tenants[t].slug == s ==> t in rows;
      return Err(TenantNotFound);
    }
    assert rows[0] in rows;
    if |rows| > 1 {
      assert rows[1] in rows;
      return Err(MultipleResults);
    }
    forall t | t in session.db.tenants && session.db.tenants[t].slug == s ensures t == rows[0] {
      assert t in rows;
    }
    return Ok(rows[0]);
  }

  lemma {:induction false} WithoutHyphensConcat(a: string, b: string)
    ensures WithoutHyphens(a + b) == WithoutHyphens(a) + WithoutHyphens(b)
    decreases |a|
  {
    if a == "" {
      assert a + b == b;
    } else {
      assert (a + b)[0] == a[0] && (a + b)[1..] == a[1..] + b;
      WithoutHyphensConcat(a[1..], b);
    }
  }

  lemma {:induction false} HexHasNoHyphens(s: string)
    requires IsHex(s)
    ensures WithoutHyphens(s) == s
    decreases |s|
  {
    if s != "" {
      assert IsHex(s[1..]);
      HexHasNoHyphens(s[1..]);
      assert s == [s[0]] + s[1..];
    }
  }

  lemma TextIsSlugText(t: Uuid)
    ensures IsSlugText(UuidText(t))
  {
  }

  lemma {:induction false} NothingToReplace(s: string, part: string)
    requires part != "" && part[|part| - 1] == ':'
    requires forall i :: 0 <= i < |s| ==> s[i] != ':'
    ensures Without(s, part) == s
    decreases |s|
  {
    if |s| >= |part| {
      assert s[..|part|][|part| - 1] == s[|part| - 1];
      NothingToReplace(s[1..], part);
    }
  }

  /** A slug's characters survive all the cleaning but their hyphens. */
  lemma SlugTextCleaned(s: string)
    requires IsSlugText(s)
    ensures Cleaned(s) == WithoutHyphens(s)
  {
    NothingToReplace(s, "urn:");
    NothingToReplace(s, "uuid:");
  }

  lemma {:induction false} HyphensGone(s: string)
    requires IsSlugText(s)
    ensures forall i :: 0 <= i < |WithoutHyphens(s)| ==> IsSlugEnd(WithoutHyphens(s)[i])
    decreases |s|
  {
    if s != "" {
      HyphensGone(s[1..]);
    }
  }

  lemma {:induction false} DigitsPlain(s: string)
    requires s != "" && forall i :: 0 <= i < |s| ==> IsSlugEnd(s[i])
    ensures Digits(s) == if IsHex(s) then Some(s) else None
    decreases |s|
  {
    if |s| > 1 {
      DigitsPlain(s[1..]);
      assert s == [s[0]] + s[1..];
      assert IsHex(s) <==> IsHexDigit(s[0]) && IsHex(s[1..]);
    } else {
      assert s == [s[0]];
    }
  }

  /** A slug or a canonical text reads as a UUID by its characters besides hyphens. */
  lemma ParsedSlugText(s: Identifier)
    requires IsSlugText(s)
    ensures
      var hex := WithoutHyphens(s);
      ParseUuid(s) ==
        if |hex| != 32 then None
        else if IsHex(hex) then Some(hex)
        else if hex[0] == '0' && hex[1] == 'x' && IsHex(hex[2..]) then Some("00" + hex[2..])
        else None
  {
    hide WithoutHyphens, Cleaned, Digits, IsHexDigit;
    SlugTextCleaned(s);
    HyphensGone(s);
    var hex := WithoutHyphens(s);
    assert !IsHexDigit('x') by { NotHex(); }
    if |hex| == 32 {
      assert Trimmed(hex, {' '}) == hex;
      DigitsPlain(hex);
      DigitsPlain(hex[2..]);
      assert Zeros(0) + hex == hex;
      assert Zeros(2) == "00";
    }
  }

  lemma HyphenDropped(rest: string)
    ensures WithoutHyphens("-" + rest) == WithoutHyphens(rest)
  {
    assert ("-" + rest)[1..] == rest;
  }

  lemma PartThenHyphen(part: string, rest: string)
    requires IsHex(part)
    ensures WithoutHyphens(part + "-" + rest) == part + WithoutHyphens(rest)
  {
    hide WithoutHyphens, IsHexDigit;
    HexHasNoHyphens(part);
    assert part + "-" + rest == part + ("-" + rest);
    WithoutHyphensConcat(part, "-" + rest);
    HyphenDropped(rest);
  }

  lemma TwoParts(a: string, b: string, rest: string)
    requires IsHex(a) && IsHex(b)
    ensures WithoutHyphens(a + "-" + b + "-" + rest) == a + b + WithoutHyphens(rest)
  {
    hide WithoutHyphens, IsHexDigit;
    PartThenHyphen(b, rest);
    PartThenHyphen(a, b + "-" + rest);
    assert a + "-" + b + "-" + rest == a + "-" + (b + "-" + rest);
  }

  lemma TextWithoutHyphens(t: Uuid)
    ensures WithoutHyphens(UuidText(t)) == t
  {
    hide WithoutHyphens, IsHexDigit;
    var a, b, c, d, e := t[..8], t[8..12], t[12..16], t[16..20], t[20..];
    HexHasNoHyphens(e);
    TwoParts(c, d, e);
    TwoParts(a, b, c + "-" + d + "-" + e);
    assert UuidText(t) == a + "-" + b + "-" + (c + "-" + d + "-" + e);
    assert t == a + b + (c + d + e);
  }

  lemma TextParses(t: Uuid)
    ensures IsSlugText(UuidText(t)) && ParseUuid(UuidText(t)) == Some(t)
  {
    hide WithoutHyphens, ParseUuid;
    TextIsSlugText(t);
    ParsedSlugText(UuidText(t));
    TextWithoutHyphens(t);
  }

  /** A tenant's id text always resolves to the tenant, whatever slugs exist. */
  lemma IdTextResolves(db: Db, t: Uuid)
    ensures IsSlugText(UuidText(t)) && Resolve(db, UuidText(t)) == Ok(t)
  {
    hide ParseUuid;
    TextParses(t);
  }

  /** So do its text in braces and its URN. */
  lemma OtherSpellings(db: Db, t: Uuid, s: Identifier)
    requires s in {"{" + UuidText(t) + "}", "urn:uuid:" + UuidText(t)}
    ensures Resolve(db, s) == Ok(t)
  {
    hide Cleaned, IntDigits, UuidText;
    var text := UuidText(t);
    TextIsSlugText(t);
    TextParses(t);
    assert text != "" by { TextWithoutHyphens(t); }
    BracesCleaned(text);
    MarksCleaned(text);
  }

  lemma BracesCleaned(text: string)
    requires IsSlugText(text) && text != ""
    ensures Cleaned("{" + text + "}") == Cleaned(text)
  {
    hide WithoutHyphens, Without;
    Braces(text);
    NothingToReplace(text, "urn:");
    NothingToReplace(text, "uuid:");
    NothingToReplace("{" + text + "}", "urn:");
    NothingToReplace("{" + text + "}", "uuid:");
  }

  lemma MarksCleaned(text: string)
    requires IsSlugText(text)
    ensures Cleaned("urn:uuid:" + text) == Cleaned(text)
  {
    hide WithoutHyphens, Without, Trimmed;
    MarksDropped(text);
    NothingToReplace(text, "urn:");
    NothingToReplace(text, "uuid:");
  }

  lemma Braces(text: string)
    requires IsSlugText(text) && text != ""
    ensures Trimmed("{" + text + "}", {'{', '}'}) == Trimmed(text, {'{', '}'})
  {
    var braces := {'{', '}'};
    assert ("{" + text + "}")[1..] == text + "}";
    assert (text + "}")[0] == text[0];
    assert LeftTrimmed("{" + text + "}", braces) == text + "}";
    assert (text + "}")[..|text|] == text;
    assert RightTrimmed(text + "}", braces) == RightTrimmed(text, braces);
  }

  /** A character at which the part does not begin stays. */
  lemma Skipped(c: char, rest: string, part: string)
    requires part != "" && !(part <= [c] + rest)
    ensures Without([c] + rest, part) == [c] + Without(rest, part)
  {
    var s := [c] + rest;
    assert s[1..] == rest && |s| >= |part| ==> s[..|part|] != part;
  }

  lemma MarksDropped(text: string)
    requires IsSlugText(text)
    ensures Without("urn:uuid:" + text, "urn:") == "uuid:" + text
    ensures Without("uuid:" + text, "uuid:") == text
  {
    hide Without;
    NothingToReplace(text, "uuid:");
    NothingToReplace(text, "urn:");
    var a := [':'] + text;
    var b := ['d'] + a;
    var c := ['i'] + b;
    var e := ['u'] + c;
    var rest := ['u'] + e;
    Skipped(':', text, "urn:");
    Skipped('d', a, "urn:");
    Skipped('i', b, "urn:");
    assert e[1] == 'i';
    Skipped('u', c, "urn:");
    assert rest[1] == 'u';
    Skipped('u', e, "urn:");
    assert rest == "uuid:" + text;
    FrontDropped("urn:", rest);
    FrontDropped("uuid:", text);
    assert "urn:uuid:" + text == "urn:" + rest;
  }

  lemma FrontDropped(part: string, rest: string)
    requires part != ""
    ensures Without(part + rest, part) == Without(rest, part)
  {
    assert (part + rest)[..|part|] == part && (part + rest)[|part|..] == rest;
  }

  function Lowered(s: string): (r: string)
    ensures |r| == |s| && forall i :: 0 <= i < |s| ==> r[i] == Lower(s[i])
  {
    seq(|s|, i requires 0 <= i < |s| => Lower(s[i]))
  }

  /** And its text with letters of either case. */
  lemma AnyCaseResolves(db: Db, t: Uuid, s: Identifier)
    requires Lowered(s) == UuidText(t)
    ensures Resolve(db, s) == Ok(t)
  {
    hide WithoutHyphens, Without, Digits, UuidText, Trimmed;
    TextIsSlugText(t);
    forall i | 0 <= i < |s| ensures s[i] !in {':', '{', '}', '_', '+', ' '} {
      assert IsSlugChar(Lowered(s)[i]);
    }
    NothingToReplace(s, "urn:");
    NothingToReplace(s, "uuid:");
    NothingToTrim(s, {'{', '}'});
    LoweredWithoutHyphens(s);
    TextWithoutHyphens(t);
    var hex := WithoutHyphens(s);
    assert Lowered(hex) == t;
    assert t[0] == Lower(hex[0]) && t[1] == Lower(hex[1]);
    forall i | 0 <= i < |hex| ensures hex[i] != ' ' {
      assert IsHexDigit(Lowered(hex)[i]);
    }
    NothingToTrim(hex, {' '});
    assert Unprefixed(hex) == hex;
    DigitsAnyCase(hex);
    assert Zeros(0) + t == t;
  }

  lemma NothingToTrim(s: string, drop: set<char>)
    requires forall i :: 0 <= i < |s| ==> s[i] !in drop
    ensures Trimmed(s, drop) == s
  {
  }

  lemma {:induction false} LoweredWithoutHyphens(s: string)
    ensures Lowered(WithoutHyphens(s)) == WithoutHyphens(Lowered(s))
    decreases |s|
  {
    if s != "" {
      LoweredWithoutHyphens(s[1..]);
      assert Lowered(s)[1..] == Lowered(s[1..]);
      assert s[0] == '-' <==> Lowered(s)[0] == '-';
      var rest := WithoutHyphens(s[1..]);
      assert s[0] != '-' ==> Lowered([s[0]] + rest) == [Lower(s[0])] + Lowered(rest);
    }
  }

  lemma {:induction false} DigitsAnyCase(s: string)
    requires s != "" && IsHex(Lowered(s))
    ensures Digits(s) == Some(Lowered(s))
    decreases |s|
  {
    assert IsHexDigit(Lowered(s)[0]);
    if |s| > 1 {
      assert IsHexDigit(Lowered(s)[1]);
      assert Lowered(s[1..]) == Lowered(s)[1..];
      DigitsAnyCase(s[1..]);
      assert Lowered(s) == [Lower(s[0])] + Lowered(s[1..]);
    } else {
      assert Lowered(s) == [Lower(s[0])];
    }
  }

  /** Single underscores between digits do not count. */
  lemma UnderscoreIgnored(a: char, rest: string)
    requires IsAnyHexDigit(a) && rest != "" && IsAnyHexDigit(rest[0])
    ensures Digits([a, '_'] + rest) == Digits([a] + rest)
    ensures Digits([a, '_', '_'] + rest) == None && Digits(['_'] + rest) == None && Digits([a, '_']) == None
  {
    assert ([a, '_'] + rest)[2..] == rest && ([a] + rest)[1..] == rest;
    assert ([a, '_', '_'] + rest)[2..] == ['_'] + rest;
    assert [a, '_'][2..] == "";
  }

  /** Everything else goes by slug, or is not found. */
  lemma OthersBySlug(db: Db, s: Identifier)
    requires ParseUuid(s).None?
    ensures Resolve(db, s) == Err(TenantNotFound) <==> forall t :: t in db.tenants ==> db.tenants[t].slug != s
    ensures Resolve(db, s).Ok? ==>
      Resolve(db, s).value in db.tenants && db.tenants[Resolve(db, s).value].slug == s
  {
    hide ParseUuid;
  }

  /** 32 characters besides hyphens, all hex digits or hex digits behind "0x". */
  predicate UuidShaped(s: string) {
    var hex := WithoutHyphens(s);
    |hex| == 32 && (IsHex(hex) || (hex[..2] == "0x" && IsHex(hex[2..])))
  }

  /** The string, hyphens aside, is a spelling of this UUID. */
  predicate Spells(s: string, t: Uuid) {
    WithoutHyphens(s) == t || (t[..2] == "00" && WithoutHyphens(s) == "0x" + t[2..])
  }

  /**
   A live tenant's slug resolves to it exactly when the slug does not read as
   a UUID at all, or happens to spell the tenant's own.
   */
  lemma SlugResolves(db: Db, t: Uuid)
    requires Sound(db) && t in db.tenants && IsSlugText(db.tenants[t].slug)
    ensures Resolve(db, db.tenants[t].slug) == Ok(t)
      <==> !UuidShaped(db.tenants[t].slug) || Spells(db.tenants[t].slug, t)
  {
    var s := db.tenants[t].slug;
    ParsedExactly(s, t);
    if ParseUuid(s).None? {
      assert SlugInUse(db, s);
    }
  }

  lemma ParsedExactly(s: Identifier, t: Uuid)
    requires IsSlugText(s)
    ensures ParseUuid(s).Some? <==> UuidShaped(s)
    ensures UuidShaped(s) ==> (ParseUuid(s) == Some(t) <==> Spells(s, t))
  {
    hide IsHexDigit, WithoutHyphens, ParseUuid;
    ParsedSlugText(s);
    var hex := WithoutHyphens(s);
    assert !IsHexDigit('x') by { NotHex(); }
    if |hex| == 32 {
      assert hex[..2] == [hex[0], hex[1]] && hex == hex[..2] + hex[2..];
      assert t == t[..2] + t[2..];
      assert ("00" + hex[2..])[..2] == "00" && ("00" + hex[2..])[2..] == hex[2..];
      assert ("0x" + t[2..])[..2] == "0x" && ("0x" + t[2..])[2..] == t[2..];
    }
  }

  lemma NotHex()
    ensures !IsHexDigit('x')
  {
  }

  /**
   Slugs that shadow: "0x" and 30 hex digits is a legal slug, is not 32 hex
   digits, and resolves to the UUID it spells instead of to its tenant.
   */
  lemma LegalSlugShadowed(db: Db, t: Uuid, digits: string)
    requires |digits| == 30 && IsHex(digits)
    requires t in db.tenants && db.tenants[t].slug == "0x" + digits && t != "00" + digits
    ensures IsTenantSlug(db.tenants[t].slug) && EdgeAccepts(db.tenants[t].slug)
    ensures !IsHex(WithoutHyphens(db.tenants[t].slug))
    ensures Resolve(db, db.tenants[t].slug) == Ok("00" + digits)
    ensures Resolve(db, db.tenants[t].slug) != Ok(t)
  {
    hide ParseUuid, EdgeAccepts, IsTenantSlug;
    var s := "0x" + digits;
    PrefixedIsSlug(digits);
    ParsedSlugText(s);
  }

  lemma PrefixedIsSlug(digits: string)
    requires |digits| == 30 && IsHex(digits)
    ensures
      var s := "0x" + digits;
      && IsTenantSlug(s) && EdgeAccepts(s) && IsSlugText(s)
      && WithoutHyphens(s) == s && !IsHex(s) && s[2..] == digits
  {
    var s := "0x" + digits;
    forall i | 0 <= i < |s| ensures IsSlugEnd(s[i]) && s[i] != '-' {
      assert i >= 2 ==> s[i] == digits[i - 2];
    }
    NoHyphens(s);
    assert s[1] == 'x';
  }

  /** One of them. */
  lemma ShadowedExample()
    ensures IsTenantSlug("0x" + seq(30, _ => 'a')) && IsHex(seq(30, _ => 'a'))
  {
  }

  lemma {:induction false} NoHyphens(s: string)
    requires forall i :: 0 <= i < |s| ==> s[i] != '-'
    ensures WithoutHyphens(s) == s
    decreases |s|
  {
    if s != "" {
      NoHyphens(s[1..]);
      assert s == [s[0]] + s[1..];
    }
  }

  /** Every slug a tenant can be created with is routed by the edge, except the reserved words. */
  lemma CreatedSlugsAreRouted(s: string)
    requires IsTenantSlug(s)
    ensures EdgeAccepts(s) <==> s !in RESERVED
    ensures "api" in RESERVED && IsTenantSlug("api")
  {
  }
}
