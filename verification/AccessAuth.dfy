/**
 Request signatures: how the server reads its keys and checks a request, how the
 client signs one, and why one signature outlives all its retries. `hash` stands
 for the hexadecimal SHA-1 digest.
 */
module AccessAuth {
  import opened Base
  import opened Text

  // ---- Decimal numbers (strconv) ----

  predicate IsDigit(c: char) {
    '0' <= c <= '9'
  }

  function Digits(n: nat): string {
    var last := [('0' as int + n % 10) as char];
    if n < 10 then last else Digits(n / 10) + last
  }

  function DigitsValue(s: string): Option<nat> {
    if s == "" then Some(0)
    else
      var (init, c) := (DigitsValue(s[..|s| - 1]), s[|s| - 1]);
      if init.Some? && IsDigit(c) then Some(10 * init.value + (c as int - '0' as int)) else None
  }

  const INT64_MAX := 0x7fff_ffff_ffff_ffff

  function FormatInt(n: int): string {
    if n < 0 then "-" + Digits(-n) else Digits(n)
  }

  /** strconv.ParseInt(s, 10, 64): an optional sign, digits, and no overflow. */
  function ParseInt(s: string): Option<int> {
    if s == "" then None
    else
      var signed := s[0] == '-' || s[0] == '+';
      var v := if signed && |s| == 1 then None else DigitsValue(if signed then s[1..] else s);
      if v.None? then None
      else if s[0] == '-' then (if v.value <= INT64_MAX + 1 then Some(-v.value) else None)
      else if v.value <= INT64_MAX then Some(v.value) else None
  }

  lemma {:induction false} DigitsRoundTrip(n: nat)
    ensures DigitsValue(Digits(n)) == Some(n)
    ensures Digits(n) != "" && forall i :: 0 <= i < |Digits(n)| ==> IsDigit(Digits(n)[i])
  {
    var last := [('0' as int + n % 10) as char];
    if n >= 10 {
      DigitsRoundTrip(n / 10);
      assert Digits(n)[..|Digits(n)| - 1] == Digits(n / 10);
    } else {
      assert last[..0] == "";
      assert DigitsValue("") == Some(0);
    }
  }

  /** A timestamp the client writes is the one the server reads. */
  lemma TimestampRoundTrip(n: int)
    requires -INT64_MAX - 1 <= n <= INT64_MAX
    ensures ParseInt(FormatInt(n)) == Some(n)
    ensures IsTrimmed(FormatInt(n)) && FormatInt(n) != ""
  {
    DigitsRoundTrip(if n < 0 then -n else n);
    assert n < 0 ==> FormatInt(n)[1..] == Digits(-n);
    hide Digits, DigitsValue;
  }

  predicate AllDigits(s: string) {
    forall i :: 0 <= i < |s| ==> IsDigit(s[i])
  }

  lemma {:induction false} DigitsOnly(s: string)
    ensures DigitsValue(s).Some? <==> AllDigits(s)
  {
    if s != "" {
      DigitsOnly(s[..|s| - 1]);
      assert s == s[..|s| - 1] + [s[|s| - 1]];
    }
  }

  lemma {:induction false} LeadingZeros(s: string)
    ensures DigitsValue("0" + s) == DigitsValue(s)
  {
    if s == "" {
      assert "0" + s == "0" && "0"[..0] == "";
      assert DigitsValue("") == Some(0);
    } else {
      LeadingZeros(s[..|s| - 1]);
      assert ("0" + s)[..|s|] == "0" + s[..|s| - 1];
    }
  }

  /** What is left of a number after its sign. */
  function Unsigned(s: string): string {
    if s != "" && (s[0] == '-' || s[0] == '+') then s[1..] else s
  }

  /** A number is digits after at most one sign, at least one of them, and fits into 64 bits. */
  lemma ParseIntIff(s: string)
    ensures DigitsValue(Unsigned(s)).Some? <==> AllDigits(Unsigned(s))
    ensures ParseInt(s).Some? <==>
            && Unsigned(s) != "" && AllDigits(Unsigned(s))
            && DigitsValue(Unsigned(s)).value <= if s[0] == '-' then 0x8000_0000_0000_0000 else 0x7fff_ffff_ffff_ffff
    ensures ParseInt(s).Some? ==>
              var v: int := DigitsValue(Unsigned(s)).value; ParseInt(s).value == if s[0] == '-' then -v else v
  {
    DigitsOnly(Unsigned(s));
    hide DigitsValue, AllDigits;
  }

  lemma NumbersHaveNoNewline(s: string)
    requires ParseInt(s).Some?
    ensures '\n' !in s
  {
    ParseIntIff(s);
    hide ParseInt;
  }

  // ---- The configured keys ----

  /** strings.Split(s, ","). */
  function SplitCommas(s: string): (parts: seq<string>)
    ensures |parts| > 0
  {
    if s == "" then [""]
    else
      AddChar(SplitCommas(s[..|s| - 1]), s[|s| - 1])
  }

  /** A comma begins a new part, and any other character belongs to the last one. */
  function AddChar(parts: seq<string>, c: char): seq<string>
    requires |parts| > 0
  {
    var n := |parts| - 1;
    if c == ',' then parts + [""] else parts[..n] + [parts[n] + [c]]
  }

  function NonBlank(parts: seq<string>): seq<string> {
    if parts == [] then []
    else
      var t := TrimSpace(parts[|parts| - 1]);
      NonBlank(parts[..|parts| - 1]) + if t == "" then [] else [t]
  }

  /** The keys of a comma-separated list. */
  function Tokens(csv: string): seq<string> {
    if TrimSpace(csv) == "" then [] else NonBlank(SplitCommas(TrimSpace(csv)))
  }

  method ParseAPIKeyTokens(csv: string) returns (out: seq<string>)
    ensures out == Tokens(csv)
  {
    var s := TrimSpace(csv);
    if s == "" {
      return [];
    }
    out := [];
    var parts := SplitCommas(s);
    for i := 0 to |parts|
      invariant out == NonBlank(parts[..i])
    {
      var t := TrimSpace(parts[i]);
      assert parts[..i + 1][..i] == parts[..i];
      if t != "" {
        out := out + [t];
      }
    }
    assert parts[..|parts|] == parts;
  }

  function Join(ts: seq<string>): string
    requires ts != []
  {
    var n := |ts| - 1;
    if n == 0 then ts[0] else Join(ts[..n]) + "," + ts[n]
  }

  /** What may stand between two commas and come back unchanged. */
  predicate IsKey(t: string) {
    t != "" && IsTrimmed(t) && ',' !in t
  }

  lemma {:induction false} SplitAfterComma(s: string, t: string)
    requires ',' !in t
    ensures SplitCommas(s + "," + t) == SplitCommas(s) + [t]
    decreases |t|
  {
    var whole := s + "," + t;
    if t == "" {
      assert whole[..|whole| - 1] == s;
    } else {
      var init := t[..|t| - 1];
      SplitAfterComma(s, init);
      assert whole[..|whole| - 1] == s + "," + init;
      assert t == init + [t[|t| - 1]];
      assert t[|t| - 1] in t;
    }
  }

  lemma {:induction false} SplitWithoutComma(t: string)
    requires ',' !in t
    ensures SplitCommas(t) == [t]
  {
    if t != "" {
      var init := t[..|t| - 1];
      SplitWithoutComma(init);
      assert t == init + [t[|t| - 1]];
      assert t[|t| - 1] in t;
    }
  }

  lemma {:induction false} KeysSurviveJoining(ts: seq<string>)
    requires ts != [] && forall i :: 0 <= i < |ts| ==> IsKey(ts[i])
    ensures SplitCommas(Join(ts)) == ts && NonBlank(ts) == ts
    ensures Join(ts) != "" && IsTrimmed(Join(ts))
    decreases |ts|
  {
    var n := |ts| - 1;
    assert IsKey(ts[n]);
    assert TrimSpace(ts[n]) == ts[n];
    assert ts == ts[..n] + [ts[n]];
    if n == 0 {
      SplitWithoutComma(ts[0]);
    } else {
      KeysSurviveJoining(ts[..n]);
      SplitAfterComma(Join(ts[..n]), ts[n]);
    }
  }

  /** Every list of keys is read back from its comma-separated form, repetitions included. */
  lemma TokensRoundTrip(ts: seq<string>)
    requires ts != [] && forall i :: 0 <= i < |ts| ==> IsKey(ts[i])
    ensures Tokens(Join(ts)) == ts
  {
    KeysSurviveJoining(ts);
    assert TrimSpace(Join(ts)) == Join(ts);
  }

  lemma {:induction false} PartsHaveNoComma(s: string)
    ensures forall i :: 0 <= i < |SplitCommas(s)| ==> ',' !in SplitCommas(s)[i]
  {
    if s != "" {
      PartsHaveNoComma(s[..|s| - 1]);
    }
  }

  lemma {:induction false} TrimmedPart(s: string)
    requires ',' !in s
    ensures ',' !in TrimSpace(s)
    decreases |s|
  {
    if s != "" {
      if IsSpace(s[0]) {
        TrimmedPart(s[1..]);
      } else if IsSpace(s[|s| - 1]) {
        TrimmedPart(s[..|s| - 1]);
      }
    }
  }

  lemma {:induction false} NonBlankAreKeys(parts: seq<string>)
    requires forall i :: 0 <= i < |parts| ==> ',' !in parts[i]
    ensures forall i :: 0 <= i < |NonBlank(parts)| ==> IsKey(NonBlank(parts)[i])
    decreases |parts|
  {
    if parts != [] {
      var n := |parts| - 1;
      NonBlankAreKeys(parts[..n]);
      TrimSpaceTrims(parts[n]);
      TrimmedPart(parts[n]);
    }
  }

  lemma TokensAreKeys(csv: string)
    ensures forall i :: 0 <= i < |Tokens(csv)| ==> IsKey(Tokens(csv)[i])
  {
    PartsHaveNoComma(TrimSpace(csv));
    NonBlankAreKeys(SplitCommas(TrimSpace(csv)));
  }

  // ---- Blanks and blank parts do not matter ----

  lemma {:induction false} NonBlankAppend(ps: seq<string>, qs: seq<string>)
    ensures NonBlank(ps + qs) == NonBlank(ps) + NonBlank(qs)
    decreases |qs|
  {
    if qs == [] {
      assert ps + qs == ps;
    } else {
      var n := |qs| - 1;
      assert (ps + qs)[..|ps + qs| - 1] == ps + qs[..n];
      NonBlankAppend(ps, qs[..n]);
    }
    hide TrimSpace;
  }

  lemma OnePart(p: string)
    ensures NonBlank([p]) == if TrimSpace(p) == "" then [] else [TrimSpace(p)]
  {
    assert [p][..0] == [];
    hide TrimSpace;
  }

  lemma BlankAtTheEnd(p: string, c: char)
    requires IsSpace(c)
    ensures TrimSpace(p + [c]) == TrimSpace(p)
  {
    var a, b := TrimSpaceParts(p);
    assert p + [c] == a + TrimSpace(p) + (b + [c]);
    TrimSpaceTrims(p);
    TrimSpaceExact(a, TrimSpace(p), b + [c]);
  }

  function InFront(c: char, parts: seq<string>): seq<string>
    requires |parts| > 0
  {
    [[c] + parts[0]] + parts[1..]
  }

  lemma FrontAndBack(c: char, parts: seq<string>, d: char)
    requires |parts| > 0
    ensures AddChar(InFront(c, parts), d) == InFront(c, AddChar(parts, d))
  {
    var n := |parts| - 1;
    var l, r := AddChar(InFront(c, parts), d), InFront(c, AddChar(parts, d));
    if d == ',' {
    } else if n == 0 {
      assert [c] + parts[0] + [d] == [c] + (parts[0] + [d]);
    } else {
      assert InFront(c, parts)[n] == parts[n];
      assert forall i :: 0 <= i <= n ==> l[i] == r[i];
    }
  }

  lemma {:induction false} SplitFront(c: char, s: string)
    requires c != ','
    ensures SplitCommas([c] + s) == InFront(c, SplitCommas(s))
    decreases |s|
  {
    var whole := [c] + s;
    if s == "" {
      assert whole[..0] == "";
      assert "" + [c] == [c] + "" == [c];
      assert SplitCommas(whole) == AddChar([""], c) == InFront(c, [""]);
    } else {
      var n := |s| - 1;
      SplitFront(c, s[..n]);
      assert whole[..|whole| - 1] == [c] + s[..n];
      FrontAndBack(c, SplitCommas(s[..n]), s[n]);
      hide InFront, AddChar;
    }
  }

  lemma {:induction false} TrimKeepsTokens(s: string)
    ensures NonBlank(SplitCommas(TrimSpace(s))) == NonBlank(SplitCommas(s))
    decreases |s|
  {
    if s != "" && IsSpace(s[0]) {
      FrontBlank(s[0], s[1..]);
      assert s == [s[0]] + s[1..];
      TrimKeepsTokens(s[1..]);
    } else if s != "" && IsSpace(s[|s| - 1]) {
      BackBlank(s[..|s| - 1], s[|s| - 1]);
      assert s == s[..|s| - 1] + [s[|s| - 1]];
      TrimKeepsTokens(s[..|s| - 1]);
    }
    hide NonBlank, SplitCommas;
  }

  lemma FrontBlank(c: char, s: string)
    requires IsSpace(c)
    ensures NonBlank(SplitCommas([c] + s)) == NonBlank(SplitCommas(s))
  {
    SplitFront(c, s);
    var parts := SplitCommas(s);
    assert parts == [parts[0]] + parts[1..];
    NonBlankAppend([[c] + parts[0]], parts[1..]);
    NonBlankAppend([parts[0]], parts[1..]);
    OnePart([c] + parts[0]);
    OnePart(parts[0]);
    assert ([c] + parts[0])[1..] == parts[0];
    assert TrimSpace([c] + parts[0]) == TrimSpace(parts[0]);
    hide NonBlank, SplitCommas, TrimSpace;
  }

  lemma BackBlank(s: string, c: char)
    requires IsSpace(c)
    ensures NonBlank(SplitCommas(s + [c])) == NonBlank(SplitCommas(s))
  {
    var parts := SplitCommas(s);
    var n := |parts| - 1;
    assert (s + [c])[..|s + [c]| - 1] == s;
    assert SplitCommas(s + [c]) == AddChar(parts, c) == parts[..n] + [parts[n] + [c]];
    assert parts == parts[..n] + [parts[n]];
    NonBlankAppend(parts[..n], [parts[n] + [c]]);
    NonBlankAppend(parts[..n], [parts[n]]);
    OnePart(parts[n] + [c]);
    OnePart(parts[n]);
    BlankAtTheEnd(parts[n], c);
    hide NonBlank, SplitCommas, TrimSpace;
  }

  lemma {:induction false} SplitJoined(parts: seq<string>)
    requires parts != [] && forall i :: 0 <= i < |parts| ==> ',' !in parts[i]
    ensures SplitCommas(Join(parts)) == parts
    decreases |parts|
  {
    var n := |parts| - 1;
    assert parts == parts[..n] + [parts[n]];
    if n == 0 {
      SplitWithoutComma(parts[0]);
    } else {
      SplitJoined(parts[..n]);
      SplitAfterComma(Join(parts[..n]), parts[n]);
    }
  }

  /** The keys of a list are its parts, trimmed, without the blank ones. */
  lemma TokensOfParts(parts: seq<string>)
    requires parts != [] && forall i :: 0 <= i < |parts| ==> ',' !in parts[i]
    ensures Tokens(Join(parts)) == NonBlank(parts)
  {
    SplitJoined(parts);
    TrimKeepsTokens(Join(parts));
    OnePart("");
    assert SplitCommas("") == [""];
    hide NonBlank, SplitCommas, TrimSpace, Join;
  }

  lemma BlanksHaveNoComma(a: string)
    requires AllSpace(a)
    ensures ',' !in a
  {
    assert !IsSpace(',');
  }

  lemma PaddedKey(part: string, t: string)
    requires Padded(part, t) && IsTrimmed(t)
    ensures TrimSpace(part) == t && (',' !in t ==> ',' !in part)
  {
    var a, b :| AllSpace(a) && AllSpace(b) && part == a + t + b;
    PaddedTrims(part, t);
    BlanksHaveNoComma(a);
    BlanksHaveNoComma(b);
    hide AllSpace, TrimSpace, IsTrimmed;
  }

  lemma {:induction false} PaddedPartsAreKeys(ts: seq<string>, parts: seq<string>)
    requires |parts| == |ts|
    requires forall i :: 0 <= i < |ts| ==> IsKey(ts[i]) && Padded(parts[i], ts[i])
    ensures NonBlank(parts) == ts
    decreases |ts|
  {
    hide TrimSpace, Padded, IsTrimmed;
    if ts != [] {
      var n := |ts| - 1;
      PaddedPartsAreKeys(ts[..n], parts[..n]);
      assert IsKey(ts[n]);
      PaddedKey(parts[n], ts[n]);
    }
  }

  /** Keys with blanks around them, in a list separated by commas, are read without the blanks. */
  lemma PaddedKeysAreRead(ts: seq<string>, parts: seq<string>)
    requires ts != [] && |parts| == |ts|
    requires forall i :: 0 <= i < |ts| ==> IsKey(ts[i]) && Padded(parts[i], ts[i])
    ensures Tokens(Join(parts)) == ts
  {
    hide TrimSpace, Padded, IsTrimmed, Tokens, Join, NonBlank;
    forall i | 0 <= i < |parts|
      ensures ',' !in parts[i]
    {
      assert IsKey(ts[i]);
      PaddedKey(parts[i], ts[i]);
    }
    TokensOfParts(parts);
    PaddedPartsAreKeys(ts, parts);
  }

  /** A blank part anywhere in the list adds no key. */
  lemma BlankPartsAreSkipped(ps: seq<string>, blank: string, qs: seq<string>)
    requires ps + qs != [] && AllSpace(blank)
    requires forall i :: 0 <= i < |ps + qs| ==> ',' !in (ps + qs)[i]
    ensures Tokens(Join(ps + [blank] + qs)) == Tokens(Join(ps + qs))
  {
    hide NonBlank, TrimSpace, Tokens, Join;
    BlankAddsNoKey(ps, blank, qs);
    BlanksHaveNoComma(blank);
    hide AllSpace;
    forall i | 0 <= i < |ps + [blank] + qs|
      ensures ',' !in (ps + [blank] + qs)[i]
    {
      var part := (ps + [blank] + qs)[i];
      assert if i < |ps| then part == (ps + qs)[i] else if i == |ps| then part == blank else part == (ps + qs)[i - 1];
    }
    TokensOfParts(ps + [blank] + qs);
    TokensOfParts(ps + qs);
  }

  lemma BlankAddsNoKey(ps: seq<string>, blank: string, qs: seq<string>)
    requires AllSpace(blank)
    ensures NonBlank(ps + [blank] + qs) == NonBlank(ps + qs)
  {
    hide NonBlank, TrimSpace;
    TrimSpaceExact(blank, "", "");
    assert blank + "" + "" == blank;
    hide AllSpace;
    NonBlankAppend(ps + [blank], qs);
    NonBlankAppend(ps, [blank]);
    NonBlankAppend(ps, qs);
    OnePart(blank);
  }

  // ---- Signatures ----

  predicate IsHexDigest(s: string) {
    |s| == 40 && forall i :: 0 <= i < 40 ==> IsDigit(s[i]) || 'a' <= s[i] <= 'f'
  }

  type HexDigest = s: string | IsHexDigest(s) witness seq(40, _ => '0')

  type Hash = string -> HexDigest

  function SignAccessPayload(hash: Hash, accessKey: string, unixSec: string, secretKey: string): HexDigest {
    hash(TrimSpace(accessKey) + "\n" + TrimSpace(unixSec) + "\n" + TrimSpace(secretKey))
  }

  function ToLower(s: string): string {
    seq(|s|, i requires 0 <= i < |s| => Lower(s[i]))
  }

  predicate VerifySigAgainst(expected: string, got: string) {
    ToLower(TrimSpace(expected)) == ToLower(TrimSpace(got))
  }

  lemma DigestIsLower(d: HexDigest)
    ensures ToLower(d) == d && TrimSpace(d) == d
  {
  }

  /** A text is a digest in some letter case: each of its characters is the digest's, or that letter in upper case. */
  lemma AnyLetterCase(d: HexDigest, s: string)
    ensures ToLower(s) == d <==>
            |s| == 40 && forall i :: 0 <= i < 40 ==>
              s[i] == d[i] || ('a' <= d[i] <= 'f' && 'A' <= s[i] <= 'F' && s[i] as int + 32 == d[i] as int)
  {
    if ToLower(s) == d {
      assert forall i :: 0 <= i < 40 ==> ToLower(s)[i] == Lower(s[i]);
    }
  }

  /** The request's headers and its query, blank where a name is missing. */
  datatype Request = Request(options: bool, header: string -> string, query: string -> string)

  function HeaderOrQuery(r: Request, header: string, query: string): string {
    if TrimSpace(r.header(header)) != "" then TrimSpace(r.header(header)) else TrimSpace(r.query(query))
  }

  datatype AuthError = Missing | BadTimestamp | Skewed | BadSignature | BadKey

  const MAX_CLOCK_SKEW := 300

  /** The first configured key that is the request's decides. */
  function CheckTokens(hash: Hash, toks: seq<string>, ak: string, ts: string, sig: string): Result<(), AuthError> {
    if toks == [] then Err(BadKey)
    else if toks[0] != ak then CheckTokens(hash, toks[1..], ak, ts, sig)
    else if VerifySigAgainst(SignAccessPayload(hash, toks[0], ts, toks[0]), sig) then Ok(())
    else Err(BadSignature)
  }

  function VerifyAccessAuth(hash: Hash, csv: string, r: Request, now: int): Result<(), AuthError> {
    if Tokens(csv) == [] || r.options then Ok(())
    else
      var ak := HeaderOrQuery(r, "X-Psp-Ak", "psp_ak");
      var ts := HeaderOrQuery(r, "X-Psp-Timestamp", "psp_ts");
      var sig := HeaderOrQuery(r, "X-Psp-Signature", "psp_sig");
      if ak == "" || ts == "" || sig == "" then Err(Missing)
      else
        var sec := ParseInt(ts);
        if sec.None? then Err(BadTimestamp)
        else if sec.value < now - MAX_CLOCK_SKEW || sec.value > now + MAX_CLOCK_SKEW then Err(Skewed)
        else CheckTokens(hash, Tokens(csv), ak, ts, sig)
  }

  lemma {:induction false} CheckTokensAcceptsIff(hash: Hash, toks: seq<string>, ak: string, ts: string, sig: string)
    ensures CheckTokens(hash, toks, ak, ts, sig) == Ok(()) <==>
            && ak in toks
            && ToLower(TrimSpace(sig)) == hash(TrimSpace(ak) + "\n" + TrimSpace(ts) + "\n" + TrimSpace(ak))
    ensures CheckTokens(hash, toks, ak, ts, sig) == Err(BadKey) <==> ak !in toks
  {
    DigestIsLower(SignAccessPayload(hash, ak, ts, ak));
    hide TrimSpace, ToLower;
    if toks != [] && toks[0] != ak {
      CheckTokensAcceptsIff(hash, toks[1..], ak, ts, sig);
    }
  }

  /** The key, the timestamp and the signature a request carries. */
  function Credentials(r: Request): (string, string, string) {
    (HeaderOrQuery(r, "X-Psp-Ak", "psp_ak"), HeaderOrQuery(r, "X-Psp-Timestamp", "psp_ts"),
     HeaderOrQuery(r, "X-Psp-Signature", "psp_sig"))
  }

  /** The signed payload names one of the configured keys, now, give or take five minutes. */
  ghost predicate Authentic(hash: Hash, csv: string, r: Request, now: int) {
    var ak := HeaderOrQuery(r, "X-Psp-Ak", "psp_ak");
    var ts := HeaderOrQuery(r, "X-Psp-Timestamp", "psp_ts");
    var sig := HeaderOrQuery(r, "X-Psp-Signature", "psp_sig");
    && ak in Tokens(csv)
    && ParseInt(ts).Some? && now - 300 <= ParseInt(ts).value <= now + 300
    && ToLower(sig) == hash(ak + "\n" + ts + "\n" + ak)
  }

  lemma HeaderOrQueryTrims(r: Request, header: string, query: string)
    ensures TrimSpace(HeaderOrQuery(r, header, query)) == HeaderOrQuery(r, header, query)
  {
    TrimSpaceTrims(r.header(header));
    TrimSpaceTrims(r.query(query));
  }

  /** A request passes exactly if no key is configured, or it is a preflight, or it is authentic. */
  lemma AcceptedIff(hash: Hash, csv: string, r: Request, now: int)
    ensures VerifyAccessAuth(hash, csv, r, now) == Ok(()) <==>
            Tokens(csv) == [] || r.options || Authentic(hash, csv, r, now)
  {
    var ak := HeaderOrQuery(r, "X-Psp-Ak", "psp_ak");
    var ts := HeaderOrQuery(r, "X-Psp-Timestamp", "psp_ts");
    var sig := HeaderOrQuery(r, "X-Psp-Signature", "psp_sig");
    hide TrimSpace, Tokens, CheckTokens, ToLower, HeaderOrQuery, ParseInt;
    HeaderOrQueryTrims(r, "X-Psp-Ak", "psp_ak");
    HeaderOrQueryTrims(r, "X-Psp-Timestamp", "psp_ts");
    HeaderOrQueryTrims(r, "X-Psp-Signature", "psp_sig");
    CheckTokensAcceptsIff(hash, Tokens(csv), ak, ts, sig);
    BlanksAreRefused(hash, csv, ak, ts, sig);
  }

  /** A blank key, timestamp or signature cannot be authentic. */
  lemma BlanksAreRefused(hash: Hash, csv: string, ak: string, ts: string, sig: string)
    ensures ak == "" ==> ak !in Tokens(csv)
    ensures ts == "" ==> ParseInt(ts).None?
    ensures sig == "" ==> ToLower(sig) != hash(ak + "\n" + ts + "\n" + ak)
  {
    TokensAreKeys(csv);
    hide Tokens;
  }

  /** And any other is refused for the first of five reasons that applies. */
  lemma RefusedFor(hash: Hash, csv: string, r: Request, now: int)
    requires Tokens(csv) != [] && !r.options
    ensures var (ak, ts, sig) := Credentials(r);
      VerifyAccessAuth(hash, csv, r, now) ==
        if ak == "" || ts == "" || sig == "" then Err(Missing)
        else if ParseInt(ts).None? then Err(BadTimestamp)
        else if ParseInt(ts).value < now - 300 || now + 300 < ParseInt(ts).value then Err(Skewed)
        else if ak !in Tokens(csv) then Err(BadKey)
        else if ToLower(sig) != hash(ak + "\n" + ts + "\n" + ak) then Err(BadSignature)
        else Ok(())
  {
    var (ak, ts, sig) := Credentials(r);
    hide TrimSpace, Tokens, CheckTokens, ToLower, HeaderOrQuery, ParseInt;
    HeaderOrQueryTrims(r, "X-Psp-Ak", "psp_ak");
    HeaderOrQueryTrims(r, "X-Psp-Timestamp", "psp_ts");
    HeaderOrQueryTrims(r, "X-Psp-Signature", "psp_sig");
    CheckTokensAcceptsIff(hash, Tokens(csv), ak, ts, sig);
    CheckTokensErrors(hash, Tokens(csv), ak, ts, sig);
  }

  lemma {:induction false} CheckTokensErrors(hash: Hash, toks: seq<string>, ak: string, ts: string, sig: string)
    ensures CheckTokens(hash, toks, ak, ts, sig) in {Ok(()), Err(BadKey), Err(BadSignature)}
  {
    hide TrimSpace, ToLower;
    if toks != [] && toks[0] != ak {
      CheckTokensErrors(hash, toks[1..], ak, ts, sig);
    }
  }

  // ---- What a signature is for ----

  /**
   The signed text determines the key and the timestamp: the two copies of the key
   frame the timestamp, and a timestamp holds no line break.
   */
  lemma PayloadBinds(ak: string, ts: string, ak': string, ts': string)
    requires '\n' !in ts && '\n' !in ts'
    requires ak + "\n" + ts + "\n" + ak == ak' + "\n" + ts' + "\n" + ak'
    ensures ak == ak' && ts == ts'
  {
    if |ak| < |ak'| {
      FramesTimestamp(ak, ts, ak', ts');
    } else if |ak'| < |ak| {
      FramesTimestamp(ak', ts', ak, ts);
    } else {
      var p, p' := ak + "\n" + ts + "\n" + ak, ak' + "\n" + ts' + "\n" + ak';
      assert p[..|ak|] == ak && p'[..|ak'|] == ak';
      assert |p| == 2 * |ak| + |ts| + 2 && |p'| == 2 * |ak'| + |ts'| + 2;
      assert p[|ak| + 1..|ak| + 1 + |ts|] == ts && p'[|ak'| + 1..|ak'| + 1 + |ts'|] == ts';
    }
  }

  lemma FramesTimestamp(ak: string, ts: string, ak': string, ts': string)
    requires '\n' !in ts && |ak| < |ak'|
    ensures ak + "\n" + ts + "\n" + ak != ak' + "\n" + ts' + "\n" + ak'
  {
    var p, p' := ak + "\n" + ts + "\n" + ak, ak' + "\n" + ts' + "\n" + ak';
    assert |p| == 2 * |ak| + |ts| + 2 && |p'| == 2 * |ak'| + |ts'| + 2;
    assert p'[|ak'|] == '\n';
    if |p| == |p'| {
      assert p[|ak'|] == ts[|ak'| - |ak| - 1];
    }
  }

  /**
   A signature that was accepted once is refused with any other key or timestamp
   text, at any time, unless the hash takes both signed texts to one digest.
   */
  lemma SignatureIsBound(hash: Hash, csv: string, r: Request, now: int, r': Request, now': int)
    requires Tokens(csv) != [] && !r.options && !r'.options
    requires VerifyAccessAuth(hash, csv, r, now) == Ok(())
    requires var (c, c') := (Credentials(r), Credentials(r'));
      && ToLower(c'.2) == ToLower(c.2)
      && (c'.0 != c.0 || c'.1 != c.1)
      && (c'.0 + "\n" + c'.1 + "\n" + c'.0 != c.0 + "\n" + c.1 + "\n" + c.0 ==>
            hash(c'.0 + "\n" + c'.1 + "\n" + c'.0) != hash(c.0 + "\n" + c.1 + "\n" + c.0))
    ensures VerifyAccessAuth(hash, csv, r', now') != Ok(())
  {
    AcceptedIff(hash, csv, r, now);
    AcceptedIff(hash, csv, r', now');
    var (c, c') := (Credentials(r), Credentials(r'));
    if Authentic(hash, csv, r', now') {
      NumbersHaveNoNewline(c.1);
      NumbersHaveNoNewline(c'.1);
      if c'.0 + "\n" + c'.1 + "\n" + c'.0 == c.0 + "\n" + c.1 + "\n" + c.0 {
        PayloadBinds(c'.0, c'.1, c.0, c.1);
      }
    }
    hide VerifyAccessAuth, ToLower, ParseInt, HeaderOrQuery, Tokens;
  }

  /** Where all three headers are given, the query does not matter. */
  lemma HeadersWin(hash: Hash, csv: string, r: Request, query: string -> string, now: int)
    requires TrimSpace(r.header("X-Psp-Ak")) != "" && TrimSpace(r.header("X-Psp-Timestamp")) != ""
    requires TrimSpace(r.header("X-Psp-Signature")) != ""
    ensures VerifyAccessAuth(hash, csv, Request(r.options, r.header, query), now) == VerifyAccessAuth(hash, csv, r, now)
  {
    hide TrimSpace, Tokens, CheckTokens, ParseInt;
  }

  /** Where a header is blank, the query's value stands in for it. */
  lemma QueryStandsIn(hash: Hash, csv: string, r: Request, r': Request, now: int)
    requires r'.options == r.options
    requires TrimSpace(r'.header("X-Psp-Ak")) ==
             TrimSpace(if TrimSpace(r.header("X-Psp-Ak")) == "" then r.query("psp_ak") else r.header("X-Psp-Ak"))
    requires TrimSpace(r'.header("X-Psp-Timestamp")) ==
             TrimSpace(if TrimSpace(r.header("X-Psp-Timestamp")) == "" then r.query("psp_ts")
                       else r.header("X-Psp-Timestamp"))
    requires TrimSpace(r'.header("X-Psp-Signature")) ==
             TrimSpace(if TrimSpace(r.header("X-Psp-Signature")) == "" then r.query("psp_sig")
                       else r.header("X-Psp-Signature"))
    requires TrimSpace(r'.query("psp_ak")) == TrimSpace(r'.query("psp_ts")) == TrimSpace(r'.query("psp_sig")) == ""
    ensures VerifyAccessAuth(hash, csv, r', now) == VerifyAccessAuth(hash, csv, r, now)
  {
    hide TrimSpace, Tokens, CheckTokens, ParseInt;
  }
}
