/** UUID text. Joi's `string().uuid()` decides which request values the validators let
    through. PostgreSQL's `uuid` input function decides which texts the database reads as a
    uuid, and which uuid each one denotes. The model represents a stored uuid by the text
    PostgreSQL prints for it: 32 lower-case hexadecimal digits in 8-4-4-4-12 groups. */
module UuidText {
  import opened Wrappers
  import opened Text

  predicate IsHexDigit(c: char) {
    '0' <= c <= '9' || 'a' <= c <= 'f' || 'A' <= c <= 'F'
  }

  predicate IsLowerHexDigit(c: char) {
    '0' <= c <= '9' || 'a' <= c <= 'f'
  }

  predicate AllHex(s: string) {
    forall i | 0 <= i < |s| :: IsHexDigit(s[i])
  }

  /** Four hexadecimal digits at the start of `s`. */
  predicate Quad(s: string) {
    |s| >= 4 && IsHexDigit(s[0]) && IsHexDigit(s[1]) && IsHexDigit(s[2]) && IsHexDigit(s[3])
  }

  lemma QuadThenHex(s: string, d: string)
    requires Quad(s) && AllHex(d)
    ensures AllHex(s[..4] + d)
  {
  }

  predicate AllLowerHex(s: string) {
    forall i | 0 <= i < |s| :: IsLowerHexDigit(s[i])
  }

  /** The text PostgreSQL prints for a uuid value. */
  predicate IsCanonical(s: string) {
    |s| == 36 &&
    forall i | 0 <= i < 36 ::
      if i == 8 || i == 13 || i == 18 || i == 23 then s[i] == '-' else IsLowerHexDigit(s[i])
  }

  /** 8-4-4-4-12 hexadecimal digits in either letter case, with `sep` between the groups. */
  predicate IsGrouped(s: string, sep: char) {
    |s| == 36 &&
    forall i | 0 <= i < 36 ::
      if i == 8 || i == 13 || i == 18 || i == 23 then s[i] == sep else IsHexDigit(s[i])
  }

  /** The usual spelling: the groups joined by `-`. */
  predicate IsHyphenated(s: string) {
    IsGrouped(s, '-')
  }

  // ---------------------------------------------------------------------------
  // Joi's `string().uuid()` with no options

  /** The text inside a matching pair of `{}`, `[]` or `()`, or the whole text when it is
      not bracketed. A lone or mismatched bracket at either end is refused. */
  function Unbracketed(s: string): (r: Option<string>)
    ensures r.Some? ==> |r.value| <= |s|
  {
    if |s| >= 2 && ((s[0] == '{' && s[|s| - 1] == '}') || (s[0] == '[' && s[|s| - 1] == ']') ||
                    (s[0] == '(' && s[|s| - 1] == ')')) then Some(s[1..|s| - 1])
    else if |s| > 0 && (s[0] in "{[(" || s[|s| - 1] in "}])") then None
    else Some(s)
  }

  /** After the first group of eight digits: three groups of four digits, each followed by
      the separator the first group was followed by or by nothing, then twelve digits.
      The pattern lets a group leave the separator out; as neither `-` nor `:` is a digit,
      a separator that does follow a group is the one the pattern takes. */
  predicate LaterGroups(s: string, sep: string, g: nat)
    requires g <= 3
    decreases 3 - g
  {
    if g == 3 then |s| == 12 && Quad(s) && Quad(s[4..]) && Quad(s[8..])
    else Quad(s) && LaterGroups(if |sep| == 1 && |s| > 4 && s[4] == sep[0] then s[5..] else s[4..], sep, g + 1)
  }

  /** The separator after the first eight digits: `-`, `:` or none. */
  function SeparatorOf(b: string): (sep: string)
    ensures sep == "" || sep == "-" || sep == ":"
    ensures sep != "" ==> |b| > 8 && b[8..9] == sep
  {
    if |b| > 8 && (b[8] == '-' || b[8] == ':') then b[8..9] else ""
  }

  /** Joi's GUID rule: optionally bracketed, 8-4-4-4-12 hexadecimal digits in either case,
      with one separator (`-`, `:` or none) after the first group that each later group
      boundary repeats or omits. */
  predicate IsUuid(s: string) {
    var b := Unbracketed(s);
    b.Some? && |b.value| >= 8 && Quad(b.value) && Quad(b.value[4..]) &&
    LaterGroups(b.value[8 + |SeparatorOf(b.value)|..], SeparatorOf(b.value), 0)
  }

  // ---------------------------------------------------------------------------
  // PostgreSQL's `uuid_in`

  /** Where the loop goes on after the four digits at the start of `s`: past one `-` when
      one follows and the group is not the last. */
  function AfterGroup(s: string, g: nat): (r: string)
    requires |s| >= 4
    ensures |r| < |s|
  {
    if g < 7 && |s| > 4 && s[4] == '-' then s[5..] else s[4..]
  }

  /** The loop of `string_to_uuid`: eight groups of four hexadecimal digits (two bytes
      each), each of the first seven optionally followed by one `-`. Yields the digits
      read and the text after them. */
  function ReadGroups(s: string, g: nat): (r: Option<(string, string)>)
    requires g <= 8
    ensures r.Some? ==> |r.value.0| == 4 * (8 - g) && AllHex(r.value.0)
    decreases 8 - g
  {
    if g == 8 then Some(("", s))
    else if !Quad(s) then None
    else
      match ReadGroups(AfterGroup(s, g), g + 1)
      case None => None
      case Some(p) => QuadThenHex(s, p.0); Some((s[..4] + p.0, p.1))
  }

  /** Lower-cased hexadecimal digits are the lower-case digits. */
  lemma LowerHex(d: string)
    requires AllHex(d)
    ensures AllLowerHex(Lower(d))
  {
  }

  /** 32 digits written out in 8-4-4-4-12 groups. */
  function Hyphenate(d: string): (s: string)
    requires |d| == 32 && AllLowerHex(d)
    ensures IsCanonical(s)
  {
    d[..8] + "-" + d[8..12] + "-" + d[12..16] + "-" + d[16..20] + "-" + d[20..]
  }

  /** The uuid a text denotes, in canonical text, or `None` when PostgreSQL refuses the
      text ("invalid input syntax for type uuid"). An opening `{` needs a closing `}`, and
      nothing may follow. */
  function ParseUuid(s: string): (r: Option<string>)
    ensures r.Some? ==> IsCanonical(r.value)
  {
    var braced := |s| > 0 && s[0] == '{';
    match ReadGroups(if braced then s[1..] else s, 0)
    case None => None
    case Some(p) =>
      if p.1 == (if braced then "}" else "") then LowerHex(p.0); Some(Hyphenate(Lower(p.0))) else None
  }

  // ---------------------------------------------------------------------------
  // What the reading promises

  lemma LowerKeepsText(s: string)
    requires forall i | 0 <= i < |s| :: !('A' <= s[i] <= 'Z')
    ensures Lower(s) == s
  {
  }

  /** One turn of the loop over text that starts with four digits. */
  lemma ReadGroupOf(s: string, g: nat, rest: string, d: string, t: string)
    requires g < 8 && Quad(s)
    requires rest == AfterGroup(s, g)
    requires ReadGroups(rest, g + 1) == Some((d, t))
    ensures ReadGroups(s, g) == Some((s[..4] + d, t))
  {
  }

  /** Where the digit groups of a canonical text start, and what follows each. */
  lemma CanonicalGroup(c: string, i: nat)
    requires IsCanonical(c) && i in {0, 4, 9, 14, 19, 24, 28, 32}
    ensures Quad(c[i..]) && c[i..][..4] == c[i..i + 4]
    ensures i < 32 ==> c[i..][4] == c[i + 4]
    ensures c[i..][4..] == c[i + 4..] && (i < 32 ==> c[i..][5..] == c[i + 5..])
  {
    assert c[i..][0] == c[i] && c[i..][1] == c[i + 1] && c[i..][2] == c[i + 2] && c[i..][3] == c[i + 3];
    assert |c[i..]| == 36 - i >= 4;
    if i < 32 {
      assert c[i..][4] == c[i + 4];
      assert c[i..][5..] == c[i + 5..];
    }
    assert c[i..][4..] == c[i + 4..];
  }

  /** One turn of the loop over the group of a canonical text that starts at `i`; the loop
      goes on at `j`, past the `-` that follows the group, if any. */
  lemma CanonicalStep(c: string, i: nat, e: nat, g: nat, j: nat, d: string)
    requires IsCanonical(c) && g < 8 && i in {0, 4, 9, 14, 19, 24, 28, 32} && e == i + 4
    requires j == if i in {4, 9, 14, 19} then i + 5 else i + 4
    requires ReadGroups(c[j..], g + 1) == Some((d, ""))
    ensures ReadGroups(c[i..], g) == Some((c[i..e] + d, ""))
  {
    CanonicalGroup(c, i);
    ReadGroupOf(c[i..], g, c[j..], d, "");
  }

  /** The last four turns of the loop over a canonical text. */
  lemma CanonicalLastGroups(c: string)
    requires IsCanonical(c)
    ensures ReadGroups(c[19..], 4) == Some((c[19..23] + (c[24..28] + (c[28..32] + (c[32..36] + ""))), ""))
  {
    assert c[36..] == "";
    assert ReadGroups(c[36..], 8) == Some(("", ""));
    CanonicalStep(c, 32, 36, 7, 36, "");
    CanonicalStep(c, 28, 32, 6, 32, c[32..36] + "");
    CanonicalStep(c, 24, 28, 5, 28, c[28..32] + (c[32..36] + ""));
    CanonicalStep(c, 19, 23, 4, 24, c[24..28] + (c[28..32] + (c[32..36] + "")));
  }

  /** The whole loop over a canonical text reads its 32 digits and leaves nothing. */
  lemma CanonicalGroupsRead(c: string, d: string)
    requires IsCanonical(c)
    requires d == c[0..4] + (c[4..8] + (c[9..13] + (c[14..18] + (c[19..23] + (c[24..28] + (c[28..32] + (c[32..36] + "")))))))
    ensures ReadGroups(c, 0) == Some((d, ""))
  {
    var d3 := c[19..23] + (c[24..28] + (c[28..32] + (c[32..36] + "")));
    CanonicalLastGroups(c);
    CanonicalStep(c, 14, 18, 3, 19, d3);
    CanonicalStep(c, 9, 13, 2, 14, c[14..18] + d3);
    CanonicalStep(c, 4, 8, 1, 9, c[9..13] + (c[14..18] + d3));
    CanonicalStep(c, 0, 4, 0, 4, c[4..8] + (c[9..13] + (c[14..18] + d3)));
    assert c[0..] == c;
  }

  /** Each stored uuid is found again under the text it is printed as. */
  lemma CanonicalReadsAsItself(c: string)
    requires IsCanonical(c)
    ensures ParseUuid(c) == Some(c)
  {
    var d := c[0..4] + (c[4..8] + (c[9..13] + (c[14..18] + (c[19..23] + (c[24..28] + (c[28..32] + (c[32..36] + "")))))));
    CanonicalGroupsRead(c, d);
    HyphenateDigits(c, d);
  }

  lemma HyphenateDigits(c: string, d: string)
    requires IsCanonical(c)
    requires d == c[0..4] + (c[4..8] + (c[9..13] + (c[14..18] + (c[19..23] + (c[24..28] + (c[28..32] + (c[32..36] + "")))))))
    ensures |d| == 32 && Lower(d) == d && AllLowerHex(d) && Hyphenate(d) == c
  {
    assert d[..8] == c[..8];
    assert d[8..12] == c[9..13];
    assert d[12..16] == c[14..18];
    assert d[16..20] == c[19..23];
    assert d[20..] == c[24..];
    forall k | 0 <= k < 32
      ensures IsLowerHexDigit(d[k])
    {
      if k < 8 {
        assert d[k] == d[..8][k] == c[..8][k] == c[k];
      } else if k < 12 {
        assert d[k] == d[8..12][k - 8] == c[9..13][k - 8] == c[k + 1];
      } else if k < 16 {
        assert d[k] == d[12..16][k - 12] == c[14..18][k - 12] == c[k + 2];
      } else if k < 20 {
        assert d[k] == d[16..20][k - 16] == c[19..23][k - 16] == c[k + 3];
      } else {
        assert d[k] == d[20..][k - 20] == c[24..][k - 20] == c[k + 4];
      }
    }
    LowerKeepsText(d);
  }

  lemma LowerConcat(a: string, b: string)
    ensures Lower(a + b) == Lower(a) + Lower(b)
  {
  }

  lemma LowerQuad(s: string)
    ensures Quad(Lower(s)) <==> Quad(s)
  {
    if |s| >= 4 {
      assert Lower(s)[0] == LowerChar(s[0]) && Lower(s)[1] == LowerChar(s[1]);
      assert Lower(s)[2] == LowerChar(s[2]) && Lower(s)[3] == LowerChar(s[3]);
    }
  }

  /** The reading does not see letter case: on lower-cased text it reads the same digits,
      lower-cased, and leaves the same text, lower-cased. */
  lemma {:induction false} ReadGroupsIgnoresCase(s: string, g: nat)
    requires g <= 8
    ensures ReadGroups(Lower(s), g) ==
            match ReadGroups(s, g)
            case None => None
            case Some(p) => Some((Lower(p.0), Lower(p.1)))
    decreases 8 - g
  {
    if g < 8 && |s| >= 4 {
      assert Lower(s)[..4] == Lower(s[..4]);
      LowerQuad(s);
      if |s| > 4 {
        assert Lower(s)[5..] == Lower(s[5..]);
        assert Lower(s)[4] == '-' <==> s[4] == '-';
      }
      assert Lower(s)[4..] == Lower(s[4..]);
      var rest := if g < 7 && |s| > 4 && s[4] == '-' then s[5..] else s[4..];
      ReadGroupsIgnoresCase(rest, g + 1);
      var p := ReadGroups(rest, g + 1);
      if p.Some? {
        LowerConcat(s[..4], p.value.0);
      }
    } else if g == 8 {
      assert Lower("") == "";
    }
  }

  lemma LowerIsBrace(t: string)
    ensures Lower(t) == "}" <==> t == "}"
    ensures Lower(t) == "" <==> t == ""
  {
    if |t| == 1 && Lower(t) == "}" {
      assert LowerChar(t[0]) == '}';
    }
  }

  /** PostgreSQL reads every spelling of a uuid as the same value, whatever its letter case. */
  lemma ParseIgnoresCase(s: string)
    ensures ParseUuid(Lower(s)) == ParseUuid(s)
  {
    var braced := |s| > 0 && s[0] == '{';
    assert (|Lower(s)| > 0 && Lower(s)[0] == '{') == braced;
    var body := if braced then s[1..] else s;
    assert (if braced then Lower(s)[1..] else Lower(s)) == Lower(body);
    ReadGroupsIgnoresCase(body, 0);
    var p := ReadGroups(body, 0);
    if p.Some? {
      LowerIsBrace(p.value.1);
      LowerIdempotent(p.value.0);
    }
  }

  /** The usual spelling, in either case, denotes the uuid whose canonical text is its
      lower-cased form. */
  lemma HyphenatedReadsAsLower(s: string)
    requires IsHyphenated(s)
    ensures IsCanonical(Lower(s))
    ensures ParseUuid(s) == Some(Lower(s))
  {
    assert IsCanonical(Lower(s));
    CanonicalReadsAsItself(Lower(s));
    ParseIgnoresCase(s);
  }

  /** Where the digit groups of a grouped spelling start. */
  lemma GroupedQuad(s: string, sep: char, i: nat)
    requires IsGrouped(s, sep) && i in {0, 4, 9, 14, 19, 24, 28, 32}
    ensures Quad(s[i..])
  {
    assert s[i..][0] == s[i] && s[i..][1] == s[i + 1] && s[i..][2] == s[i + 2] && s[i..][3] == s[i + 3];
  }

  /** Joi accepts the grouped spellings with `-` or `:` between the groups. */
  lemma GroupedPassesJoi(s: string, sep: char)
    requires (sep == '-' || sep == ':') && IsGrouped(s, sep)
    ensures IsUuid(s)
  {
    assert Unbracketed(s) == Some(s);
    assert SeparatorOf(s) == [sep];
    GroupedQuad(s, sep, 0);
    GroupedQuad(s, sep, 4);
    GroupedLater(s, sep);
  }

  /** The later groups of a grouped spelling, with `sep` after each of the first three. */
  lemma GroupedLater(s: string, sep: char)
    requires (sep == '-' || sep == ':') && IsGrouped(s, sep)
    ensures LaterGroups(s[9..], [sep], 0)
  {
    GroupedQuad(s, sep, 24);
    GroupedQuad(s, sep, 28);
    GroupedQuad(s, sep, 32);
    assert s[24..][4..] == s[28..] && s[24..][8..] == s[32..];
    assert LaterGroups(s[24..], [sep], 3);
    GroupedQuad(s, sep, 19);
    assert s[19..][4] == sep && s[19..][5..] == s[24..];
    assert LaterGroups(s[19..], [sep], 2);
    GroupedQuad(s, sep, 14);
    assert s[14..][4] == sep && s[14..][5..] == s[19..];
    assert LaterGroups(s[14..], [sep], 1);
    GroupedQuad(s, sep, 9);
    assert s[9..][4] == sep && s[9..][5..] == s[14..];
    assert LaterGroups(s[9..], [sep], 0);
  }

  /** One turn of the loop over text that starts with four digits: it reads on from `rest`. */
  lemma ReadHexGroup(s: string, g: nat, rest: string)
    requires g < 8 && Quad(s)
    requires rest == if g < 7 && |s| > 4 && s[4] == '-' then s[5..] else s[4..]
    requires ReadGroups(rest, g + 1).Some?
    ensures ReadGroups(s, g).Some? && ReadGroups(s, g).value.1 == ReadGroups(rest, g + 1).value.1
  {
  }

  /** The last turn of the loop reads four digits and nothing after them. */
  lemma LastGroupRead(w: string)
    requires Quad(w)
    ensures ReadGroups(w, 7).Some? && ReadGroups(w, 7).value.1 == w[4..]
  {
    assert ReadGroups(w[4..], 8) == Some(("", w[4..]));
  }

  /** A turn of the loop where no `-` follows the four digits. */
  lemma GroupThenDigit(s: string, g: nat, t: string)
    requires g < 7 && |s| >= 5 && Quad(s) && IsHexDigit(s[4])
    requires ReadGroups(s[4..], g + 1).Some? && ReadGroups(s[4..], g + 1).value.1 == t
    ensures ReadGroups(s, g).Some? && ReadGroups(s, g).value.1 == t
  {
  }

  lemma LastGroupsRead(u: string, v: string, w: string)
    requires |u| >= 12 && v == u[4..] && w == u[8..]
    requires Quad(u) && Quad(v) && Quad(w)
    requires v[4..] == w && IsHexDigit(u[4]) && IsHexDigit(v[4])
    ensures ReadGroups(u, 5).Some? && ReadGroups(u, 5).value.1 == u[12..]
  {
    LastGroupRead(w);
    assert w[4..] == u[12..];
    GroupThenDigit(v, 6, u[12..]);
    GroupThenDigit(u, 5, u[12..]);
  }

  /** Four digits at `i` in the first `n` characters of `u` are four digits at `i` in `u`. */
  lemma PrefixQuad(u: string, n: nat, i: nat)
    requires i + 4 <= n <= |u| && Quad(u[..n][i..])
    ensures Quad(u[i..])
  {
    assert u[..n][i..][0] == u[i..][0] && u[..n][i..][1] == u[i..][1];
    assert u[..n][i..][2] == u[i..][2] && u[..n][i..][3] == u[i..][3];
  }

  lemma TakeDrop(u: string, n: nat, k: nat)
    requires k <= n <= |u|
    ensures u[..n][k..] == u[k..][..n - k] && u[k..][n - k..] == u[n..]
  {
  }

  /** Joi's last twelve digits, the first `n` characters of `u`. */
  lemma LastGroupsOf(u: string, n: nat, sep: string)
    requires n <= |u| && LaterGroups(u[..n], sep, 3)
    ensures n == 12 && Quad(u) && Quad(u[4..]) && Quad(u[8..]) && u[4..][4..] == u[8..]
    ensures IsHexDigit(u[4]) && IsHexDigit(u[4..][4]) && u[12..] == u[n..]
  {
    PrefixQuad(u, n, 0);
    PrefixQuad(u, n, 4);
    PrefixQuad(u, n, 8);
    assert u[4] == u[4..][0] && u[4..][4] == u[8..][0];
  }

  /** One of Joi's four-digit groups at the start of the first `n` characters of `u`: the
      later groups go on at `k`, past the separator when one follows. */
  lemma LaterNext(u: string, n: nat, sep: string, g: nat, k: nat)
    requires g < 3 && (sep == "" || sep == "-") && n <= |u| && LaterGroups(u[..n], sep, g)
    requires k == if |sep| == 1 && n > 4 && u[4] == sep[0] then 5 else 4
    ensures k <= n && |u| > 4 && (k == 5 <==> u[4] == '-')
    ensures LaterGroups(u[k..][..n - k], sep, g + 1) && u[k..][n - k..] == u[n..]
  {
    var s := u[..n];
    assert s[k..][0] == u[k];
    if n > 4 {
      assert s[4] == u[4];
    }
    TakeDrop(u, n, k);
  }

  /** Where the first `n` characters of `u` are Joi's later groups from group `g` on (Joi's
      group `g` is the loop's group `h == g + 2`), the loop reads them all and leaves the
      rest of `u`. */
  lemma {:induction false} LaterGroupsAreRead(u: string, n: nat, sep: string, g: nat, h: nat)
    requires g <= 3 && h == g + 2 && (sep == "" || sep == "-") && n <= |u| && LaterGroups(u[..n], sep, g)
    ensures ReadGroups(u, h).Some? && ReadGroups(u, h).value.1 == u[n..]
    decreases 3 - g
  {
    PrefixQuad(u, n, 0);
    if g == 3 {
      LastGroupsOf(u, n, sep);
      LastGroupsRead(u, u[4..], u[8..]);
    } else {
      var k := if |sep| == 1 && n > 4 && u[4] == sep[0] then 5 else 4;
      LaterNext(u, n, sep, g, k);
      LaterGroupsAreRead(u[k..], n - k, sep, g + 1, h + 1);
      ReadHexGroup(u, h, u[k..]);
    }
  }

  /** The second turn of the loop, which goes on at `v[k..]`: past a `-` exactly when
      `k == 5`. */
  lemma SecondGroupRead(v: string, w: string, k: nat)
    requires |v| > 4 && Quad(v) && (k == 4 || k == 5) && (k == 5 <==> v[4] == '-') && w == v[k..]
    requires ReadGroups(w, 2).Some?
    ensures ReadGroups(v, 1).Some? && ReadGroups(v, 1).value.1 == ReadGroups(w, 2).value.1
  {
    ReadHexGroup(v, 1, w);
  }

  /** The first two turns of the loop over eight digits `u[..8]`, with a `-` after them
      exactly when the rest `w` starts at `m == 9`. */
  lemma FirstGroupsRead(u: string, v: string, w: string, m: nat)
    requires (m == 8 || m == 9) && |u| > 8 && v == u[4..] && w == u[m..]
    requires Quad(u) && Quad(v) && (m == 9 <==> u[8] == '-')
    requires ReadGroups(w, 2).Some?
    ensures ReadGroups(u, 0).Some? && ReadGroups(u, 0).value.1 == ReadGroups(w, 2).value.1
  {
    assert u[4] == v[0] && v[4] == u[8] && v[m - 4..] == w;
    SecondGroupRead(v, w, m - 4);
    ReadHexGroup(u, 0, v);
  }

  /** Where the first `n` characters of `u` are Joi's digit groups, with the later groups
      starting at `m`, the whole loop reads them and leaves the rest of `u`. */
  lemma GroupsAreRead(u: string, n: nat, m: nat)
    requires (m == 8 || m == 9) && m <= n <= |u| && |u| > 8 && Quad(u) && Quad(u[4..]) && (m == 9 <==> u[8] == '-')
    requires LaterGroups(u[..n][m..], if m == 9 then "-" else "", 0)
    ensures ReadGroups(u, 0).Some? && ReadGroups(u, 0).value.1 == u[n..]
  {
    TakeDrop(u, n, m);
    LaterGroupsAreRead(u[m..], n - m, if m == 9 then "-" else "", 0, 2);
    FirstGroupsRead(u, u[4..], u[m..], m);
  }

  /** Text with no `:` and no opening `[` or `(`, the marks PostgreSQL does not read. */
  predicate PlainSpelling(s: string) {
    forall i | 0 <= i < |s| :: s[i] != ':' && s[i] != '[' && s[i] != '('
  }

  /** A plain spelling that Joi unbrackets is the text after an optional `{`, followed by
      the matching `}` when there is one. */
  lemma BracesOf(s: string, body: string, n: nat)
    requires Unbracketed(s).Some? && PlainSpelling(s)
    requires body == if |s| > 0 && s[0] == '{' then s[1..] else s
    requires n == (if |s| > 0 && s[0] == '{' then |s| - 2 else |s|)
    ensures n <= |body| && body[..n] == Unbracketed(s).value
    ensures body[n..] == if |s| > 0 && s[0] == '{' then "}" else ""
  {
  }

  /** The text PostgreSQL's loop reads for a spelling Joi accepts: without the leading `{`,
      with Joi's digit groups as its first `n` characters, the later ones from `m` on. */
  lemma JoiBody(s: string, body: string, n: nat, m: nat)
    requires IsUuid(s) && PlainSpelling(s)
    requires body == if |s| > 0 && s[0] == '{' then s[1..] else s
    requires n == (if |s| > 0 && s[0] == '{' then |s| - 2 else |s|)
    requires m == 8 + |SeparatorOf(Unbracketed(s).value)|
    ensures (m == 8 || m == 9) && m <= n <= |body| && |body| > 8 && (m == 9 <==> body[8] == '-')
    ensures Quad(body) && Quad(body[4..]) && LaterGroups(body[..n][m..], if m == 9 then "-" else "", 0)
    ensures body[n..] == if |s| > 0 && s[0] == '{' then "}" else ""
  {
    var b := Unbracketed(s).value;
    BracesOf(s, body, n);
    assert SeparatorOf(b) != ":";
    PrefixQuad(body, n, 0);
    PrefixQuad(body, n, 4);
    assert b[8] == body[8];
  }

  /** Every spelling Joi accepts that uses no `:` separator and no `[]` or `()` brackets
      is one PostgreSQL reads. */
  lemma JoiSpellingsPostgresReads(s: string)
    requires IsUuid(s) && PlainSpelling(s)
    ensures ParseUuid(s).Some?
  {
    var braced := |s| > 0 && s[0] == '{';
    var body := if braced then s[1..] else s;
    var n := if braced then |s| - 2 else |s|;
    var m := 8 + |SeparatorOf(Unbracketed(s).value)|;
    JoiBody(s, body, n, m);
    GroupsAreRead(body, n, m);
  }

  /** Joi accepts the colon-separated spelling, which PostgreSQL refuses: the loop meets
      the `:` where the third group of digits should start. */
  lemma ColonSpellingIsRefused(s: string)
    requires IsGrouped(s, ':')
    ensures IsUuid(s)
    ensures ParseUuid(s) == None
  {
    GroupedPassesJoi(s, ':');
    GroupedQuad(s, ':', 0);
    GroupedQuad(s, ':', 4);
    var v := s[4..];
    assert s[4] == v[0] && v[4] == ':' && v[4..] == s[8..] && s[8..][0] == ':';
    assert ReadGroups(s[8..], 2) == None;
    assert ReadGroups(v, 1) == None;
    assert ReadGroups(s, 0) == None;
  }
}
