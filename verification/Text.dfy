/** The string operations the configuration code relies on. */
module Text {
  /** unicode.IsSpace. */
  predicate IsSpace(c: char) {
    || '\t' <= c <= '\r' || c == ' ' || c == '\U{0085}' || c == '\U{00A0}' || c == '\U{1680}'
    || '\U{2000}' <= c <= '\U{200A}' || c == '\U{2028}' || c == '\U{2029}' || c == '\U{202F}'
    || c == '\U{205F}' || c == '\U{3000}'
  }

  /** strings.TrimSpace. */
  function TrimSpace(s: string): string {
    if s == "" then s
    else if IsSpace(s[0]) then TrimSpace(s[1..])
    else if IsSpace(s[|s| - 1]) then TrimSpace(s[..|s| - 1])
    else s
  }

  predicate IsTrimmed(s: string) {
    s == "" || (!IsSpace(s[0]) && !IsSpace(s[|s| - 1]))
  }

  lemma {:induction false} TrimSpaceTrims(s: string)
    ensures IsTrimmed(TrimSpace(s))
    ensures TrimSpace(TrimSpace(s)) == TrimSpace(s)
    decreases |s|
  {
    if s != "" {
      if IsSpace(s[0]) {
        TrimSpaceTrims(s[1..]);
      } else if IsSpace(s[|s| - 1]) {
        TrimSpaceTrims(s[..|s| - 1]);
      }
    }
  }

  predicate AllSpace(s: string) {
    forall i :: 0 <= i < |s| ==> IsSpace(s[i])
  }

  /** Trimming takes away the blanks around a text, all of them and nothing else. */
  lemma {:induction false} TrimSpaceExact(a: string, t: string, b: string)
    requires AllSpace(a) && AllSpace(b) && IsTrimmed(t)
    ensures TrimSpace(a + t + b) == t
    decreases |a| + |b|
  {
    var s := a + t + b;
    if a != "" {
      assert s[1..] == a[1..] + t + b;
      TrimSpaceExact(a[1..], t, b);
    } else if b != "" {
      assert s[..|s| - 1] == a + t + b[..|b| - 1];
      if t == "" {
        assert s[1..] == a + t + b[1..];
        TrimSpaceExact(a, t, b[1..]);
      } else {
        TrimSpaceExact(a, t, b[..|b| - 1]);
      }
    } else {
      assert s == t;
    }
  }

  /** And every text is what is left of it with blanks around. */
  lemma {:induction false} TrimSpaceParts(s: string) returns (a: string, b: string)
    ensures s == a + TrimSpace(s) + b && AllSpace(a) && AllSpace(b)
    decreases |s|
  {
    if s == "" {
      a, b := "", "";
    } else if IsSpace(s[0]) {
      a, b := TrimSpaceParts(s[1..]);
      a := [s[0]] + a;
    } else if IsSpace(s[|s| - 1]) {
      a, b := TrimSpaceParts(s[..|s| - 1]);
      b := b + [s[|s| - 1]];
    } else {
      a, b := "", "";
    }
  }

  /** `t` with blanks around it. */
  ghost predicate Padded(s: string, t: string) {
    exists a, b :: AllSpace(a) && AllSpace(b) && s == a + t + b
  }

  lemma PaddedTrims(s: string, t: string)
    requires Padded(s, t) && IsTrimmed(t)
    ensures TrimSpace(s) == t
  {
    var a, b :| AllSpace(a) && AllSpace(b) && s == a + t + b;
    TrimSpaceExact(a, t, b);
  }

  /** A text is blank exactly if it holds nothing but blanks. */
  lemma BlankIff(s: string)
    ensures TrimSpace(s) == "" <==> AllSpace(s)
  {
    if AllSpace(s) {
      assert s + "" + "" == s;
      TrimSpaceExact(s, "", "");
    }
    var a, b := TrimSpaceParts(s);
  }

  function Lower(c: char): char {
    if 'A' <= c <= 'Z' then c - 'A' + 'a' else c
  }

  /** strings.HasPrefix(strings.ToLower(s), prefix), for a lower-case ASCII prefix. */
  predicate HasPrefixFold(s: string, prefix: string) {
    |prefix| <= |s| && forall i :: 0 <= i < |prefix| ==> Lower(s[i]) == prefix[i]
  }

  predicate Contains(s: string, t: string) {
    |s| >= |t| && (s[..|t|] == t || (s != "" && Contains(s[1..], t)))
  }

  /** NormalizeServerURLForWS. */
  function NormalizeServerURL(raw: string): string {
    var s := TrimSpace(raw);
    if s == "" then ""
    else if HasPrefixFold(s, "http://") then "ws://" + s[|"http://"|..]
    else if HasPrefixFold(s, "https://") then "wss://" + s[|"https://"|..]
    else if HasPrefixFold(s, "ws://") || HasPrefixFold(s, "wss://") then s
    else if !Contains(s, "://") then "ws://" + s
    else s
  }

  /** Putting a scheme before the end of a trimmed string leaves it trimmed. */
  lemma SchemeStaysTrimmed(scheme: string, s: string, n: nat)
    requires scheme == "ws://" || scheme == "wss://"
    requires IsTrimmed(s) && n <= |s|
    ensures IsTrimmed(scheme + s[n..]) && TrimSpace(scheme + s[n..]) == scheme + s[n..]
  {
    var t := scheme + s[n..];
    assert t[0] == 'w';
    if n < |s| {
      assert t[|t| - 1] == s[|s| - 1];
    } else {
      assert t[|t| - 1] == '/';
    }
  }

  lemma WebSocketURLIsNormal(u: string)
    requires TrimSpace(u) == u
    requires HasPrefixFold(u, "ws://") || HasPrefixFold(u, "wss://")
    ensures NormalizeServerURL(u) == u
  {
    assert Lower(u[0]) == 'w';
  }

  /** The security of the scheme is kept, and so is everything after the scheme. */
  lemma NormalizeServerURLScheme(raw: string)
    ensures var (s, u) := (TrimSpace(raw), NormalizeServerURL(raw));
      && (HasPrefixFold(u, "wss://") <==> HasPrefixFold(s, "https://") || HasPrefixFold(s, "wss://"))
      && (HasPrefixFold(u, "ws://") <==>
            HasPrefixFold(s, "http://") || HasPrefixFold(s, "ws://") || (s != "" && !Contains(s, "://")))
      && (HasPrefixFold(s, "http://") ==> u[5..] == s[7..])
      && (HasPrefixFold(s, "https://") ==> u[6..] == s[8..])
      && (s != "" && !Contains(s, "://") ==> u[5..] == s)
      && (s == "" || HasPrefixFold(s, "ws://") || HasPrefixFold(s, "wss://") ==> u == s)
      && (u != s ==> "ws://" <= u || "wss://" <= u)
      && (Contains(s, "://") && !HasPrefixFold(s, "http://") && !HasPrefixFold(s, "https://") ==> u == s)
  {
    var s, u := TrimSpace(raw), NormalizeServerURL(raw);
    hide TrimSpace;
    OneScheme(s);
    OneScheme(u);
    SchemeIsContained(s);
    hide Contains;
    assert HasPrefixFold(s, "http://") ==> u == "ws://" + s[7..];
    assert HasPrefixFold(s, "https://") ==> u == "wss://" + s[8..];
    assert s != "" && !Contains(s, "://") ==> u == "ws://" + s;
  }

  /** A string starts with one of the schemes at most. */
  lemma OneScheme(s: string)
    ensures HasPrefixFold(s, "ws://") ==>
              !HasPrefixFold(s, "wss://") && !HasPrefixFold(s, "http://") && !HasPrefixFold(s, "https://")
    ensures HasPrefixFold(s, "wss://") ==> !HasPrefixFold(s, "http://") && !HasPrefixFold(s, "https://")
    ensures HasPrefixFold(s, "http://") ==> !HasPrefixFold(s, "https://")
    ensures |s| >= 5 && s[..5] == "ws://" ==> HasPrefixFold(s, "ws://")
    ensures |s| >= 6 && s[..6] == "wss://" ==> HasPrefixFold(s, "wss://")
  {
    assert HasPrefixFold(s, "ws://") ==> Lower(s[0]) == 'w' && Lower(s[2]) == ':';
    assert HasPrefixFold(s, "wss://") ==> Lower(s[0]) == 'w' && Lower(s[2]) == 's';
    assert HasPrefixFold(s, "http://") ==> Lower(s[0]) == 'h' && Lower(s[4]) == ':';
    assert HasPrefixFold(s, "https://") ==> Lower(s[0]) == 'h' && Lower(s[4]) == 's';
    assert forall i :: 0 <= i < 5 && |s| >= 5 ==> s[..5][i] == s[i];
    assert forall i :: 0 <= i < 6 && |s| >= 6 ==> s[..6][i] == s[i];
  }

  lemma {:induction false} ContainsAt(s: string, t: string, n: nat)
    requires n + |t| <= |s| && s[n..n + |t|] == t
    ensures Contains(s, t)
  {
    if n > 0 {
      assert s[1..][n - 1..n - 1 + |t|] == t;
      ContainsAt(s[1..], t, n - 1);
    }
  }

  ghost predicate OccursAt(s: string, t: string, n: nat) {
    n + |t| <= |s| && s[n..n + |t|] == t
  }

  lemma {:induction false} ContainsIff(s: string, t: string)
    ensures Contains(s, t) <==> exists n: nat :: OccursAt(s, t, n)
  {
    forall n: nat | OccursAt(s, t, n)
      ensures Contains(s, t)
    {
      ContainsAt(s, t, n);
    }
    if Contains(s, t) {
      if s[..|t|] == t {
        assert OccursAt(s, t, 0);
      } else {
        ContainsIff(s[1..], t);
        var n: nat :| OccursAt(s[1..], t, n);
        assert s[1..][n..n + |t|] == s[n + 1..n + 1 + |t|];
        assert OccursAt(s, t, n + 1);
      }
    }
  }

  /** A string that starts with a scheme contains the mark that ends it. */
  lemma SchemeIsContained(s: string)
    ensures HasPrefixFold(s, "http://") || HasPrefixFold(s, "https://") ==> Contains(s, "://")
    ensures HasPrefixFold(s, "ws://") || HasPrefixFold(s, "wss://") ==> Contains(s, "://")
  {
    MarkAfter(s, "http://");
    MarkAfter(s, "https://");
    MarkAfter(s, "ws://");
    MarkAfter(s, "wss://");
    hide HasPrefixFold, Contains;
  }

  lemma MarkAfter(s: string, scheme: string)
    requires |scheme| >= 3 && scheme[|scheme| - 3..] == "://"
    ensures HasPrefixFold(s, scheme) ==> Contains(s, "://")
  {
    if !HasPrefixFold(s, scheme) { return; }
    var n := |scheme| - 3;
    assert scheme[n] == scheme[n..][0] && scheme[n + 1] == scheme[n..][1] && scheme[n + 2] == scheme[n..][2];
    assert Lower(s[n]) == ':' && Lower(s[n + 1]) == '/' && Lower(s[n + 2]) == '/';
    assert s[n..n + 3] == "://";
    ContainsAt(s, "://", n);
  }

  /** A normalized URL is trimmed, blank only for a blank one, and normalized already. */
  lemma NormalizeServerURLIdempotent(raw: string)
    ensures var u := NormalizeServerURL(raw);
      TrimSpace(u) == u && NormalizeServerURL(u) == u && (u == "" <==> TrimSpace(raw) == "")
  {
    var s, u := TrimSpace(raw), NormalizeServerURL(raw);
    TrimSpaceTrims(raw);
    hide TrimSpace, Contains;
    if s == "" {
    } else if HasPrefixFold(s, "http://") {
      SchemeStaysTrimmed("ws://", s, 7);
      WebSocketURLIsNormal(u);
    } else if HasPrefixFold(s, "https://") {
      SchemeStaysTrimmed("wss://", s, 8);
      WebSocketURLIsNormal(u);
    } else if HasPrefixFold(s, "ws://") || HasPrefixFold(s, "wss://") {
    } else if !Contains(s, "://") {
      SchemeStaysTrimmed("ws://", s, 0);
      assert s[0..] == s;
      WebSocketURLIsNormal(u);
    }
  }
}
