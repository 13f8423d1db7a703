/**
 The bubblewrap argument rewriter of session/fireball-bwrap-wrapper.c.

 The first half is the token-level policy: which argument files are accepted and what they become.
 The second half is the byte-level loop over a bounded output buffer, proved to compute exactly that.
 Bytes are modelled as characters; the code only compares them for equality and against '0'..'9'.
 */
module BwrapArguments {
  import opened Wrappers

  const MAX_ARGUMENT_BYTES := 1024 * 1024
  const NUL := '\0'

  newtype uint32 = x: int | 0 <= x < 0x1_0000_0000

  // ---------- NUL-terminated token files ----------

  predicate IsToken(t: string) {
    t != [] && NUL !in t
  }

  predicate AllTokens(ts: seq<string>) {
    forall i :: 0 <= i < |ts| ==> IsToken(ts[i])
  }

  /** The bytes of a token list: every token followed by its terminator. */
  function Encode(ts: seq<string>): string {
    if ts == [] then [] else Encode(ts[..|ts| - 1]) + ts[|ts| - 1] + [NUL]
  }

  /** memchr: the offset of the first NUL, or the length when there is none. */
  function FirstNul(s: string): (n: nat)
    ensures n <= |s|
    ensures forall i :: 0 <= i < n ==> s[i] != NUL
    ensures n < |s| ==> s[n] == NUL
  {
    if s == [] || s[0] == NUL then 0 else 1 + FirstNul(s[1..])
  }

  /** The tokens of a byte string; None when a token is empty or unterminated. */
  function Split(s: string): Option<seq<string>>
    decreases |s|
  {
    if s == [] then Some([])
    else
      var n := FirstNul(s);
      if n == 0 || n == |s| then None else Prepend([s[..n]], Split(s[n + 1..]))
  }

  function Prepend(ts: seq<string>, rest: Option<seq<string>>): Option<seq<string>> {
    match rest
    case None => None
    case Some(r) => Some(ts + r)
  }

  lemma {:induction false} EncodeCons(t: string, ts: seq<string>)
    ensures Encode([t] + ts) == t + [NUL] + Encode(ts)
  {
    if ts == [] {
      assert [t][..0] == [];
    } else {
      var n := |ts| - 1;
      assert ([t] + ts)[..n + 1] == [t] + ts[..n];
      EncodeCons(t, ts[..n]);
    }
  }

  /** Splitting inverts encoding on every byte string it accepts. */
  lemma {:induction false} SplitThenEncode(s: string)
    requires Split(s).Some?
    ensures AllTokens(Split(s).value)
    ensures Encode(Split(s).value) == s
    decreases |s|
  {
    if s != [] {
      var n := FirstNul(s);
      var token, rest := s[..n], Split(s[n + 1..]).value;
      SplitThenEncode(s[n + 1..]);
      assert Split(s).value == [token] + rest;
      AllTokensCons(token, rest);
      calc {
        Encode([token] + rest);
        { EncodeCons(token, rest); }
        token + [NUL] + s[n + 1..];
        s;
      }
    }
  }

  lemma AllTokensCons(t: string, ts: seq<string>)
    requires IsToken(t) && AllTokens(ts)
    ensures AllTokens([t] + ts)
  {
    hide IsToken;
    forall i | 0 <= i < |ts| + 1 ensures IsToken(([t] + ts)[i]) {
      if i > 0 { assert ([t] + ts)[i] == ts[i - 1]; }
    }
  }

  /** Encoding is uniquely readable: splitting gives back the very same tokens. */
  lemma {:induction false} EncodeThenSplit(ts: seq<string>)
    requires AllTokens(ts)
    ensures Split(Encode(ts)) == Some(ts)
  {
    if ts != [] {
      var t, rest := ts[0], ts[1..];
      assert ts == [t] + rest;
      EncodeCons(t, rest);
      EncodeThenSplit(rest);
      var s := Encode(ts);
      assert s[..|t|] == t && s[|t|] == NUL && s[|t| + 1..] == Encode(rest);
      assert forall i :: 0 <= i < |t| ==> s[i] == t[i] && t[i] in t;
      assert FirstNul(s) == |t|;
    }
  }

  // ---------- the policy ----------

  predicate Forbidden(t: string) {
    t == "--args" || t == "--pidns" || t == "--cap-add" || t == "--cap-drop"
    || t == "--not-a-security-boundary"
  }

  predicate NumericFd(t: string) {
    1 <= |t| <= 10 && forall i :: 0 <= i < |t| ==> '0' <= t[i] <= '9'
  }

  /** What the token at i demands of itself and of its successor. */
  predicate TokenAllowed(ts: seq<string>, i: nat)
    requires i < |ts|
  {
    && !Forbidden(ts[i])
    && (ts[i] == "--proc" ==> i + 1 < |ts| && ts[i + 1] == "/proc")
    && (ts[i] == "--seccomp" ==> i + 1 < |ts| && NumericFd(ts[i + 1]))
  }

  function Count(ts: seq<string>, t: string): (n: nat)
    ensures n <= |ts|
  {
    if ts == [] then 0
    else Count(ts[..|ts| - 1], t) + if ts[|ts| - 1] == t then 1 else 0
  }

  predicate Accepted(ts: seq<string>) {
    && (forall i :: 0 <= i < |ts| ==> TokenAllowed(ts, i))
    && Count(ts, "--unshare-pid") == 1
    && Count(ts, "--proc") == 1
    && Count(ts, "--seccomp") == 1
    && Count(ts, "--unshare-uts") == 1
  }

  function RewriteToken(t: string): seq<string> {
    if t == "--unshare-pid" then []
    else if t == "--proc" then ["--ro-bind", "/proc"]
    else [t]
  }

  /** The rewrite, token by token: the operand of "--proc" is copied and so becomes the bind destination. */
  function Rewritten(ts: seq<string>): seq<string> {
    if ts == [] then [] else Rewritten(ts[..|ts| - 1]) + RewriteToken(ts[|ts| - 1])
  }

  /** The byte-level policy: a bounded argument file whose tokens are accepted. */
  predicate Acceptable(bytes: string) {
    && 0 < |bytes| <= MAX_ARGUMENT_BYTES
    && Split(bytes).Some?
    && Accepted(Split(bytes).value)
  }

  // ---------- the policy, said once more in full ----------

  predicate NoneOf(ts: seq<string>, options: seq<string>) {
    forall i, j :: 0 <= i < |ts| && 0 <= j < |options| ==> ts[i] != options[j]
  }

  /** None of the five options that are refused. */
  predicate NoRefused(ts: seq<string>) {
    NoneOf(ts, ["--args", "--pidns", "--cap-add", "--cap-drop", "--not-a-security-boundary"])
  }

  /** The bytes are tokens, and none of them is refused. */
  predicate NoRefusedOption(bytes: string) {
    Split(bytes).Some? && NoRefused(Split(bytes).value)
  }

  ghost predicate Once(ts: seq<string>, t: string) {
    exists p :: 0 <= p < |ts| && ts[p] == t && forall q :: 0 <= q < |ts| && ts[q] == t ==> q == p
  }

  lemma {:induction false} CountOnce(ts: seq<string>, t: string)
    ensures Count(ts, t) == 1 <==> Once(ts, t)
  {
    if Count(ts, t) == 1 {
      var p := MarkerAt(ts, t);
    }
    if Once(ts, t) {
      var p :| 0 <= p < |ts| && ts[p] == t && forall q :: 0 <= q < |ts| && ts[q] == t ==> q == p;
      assert ts == ts[..p] + [t] + ts[p + 1..];
      CountConcat(ts[..p] + [t], ts[p + 1..], t);
      CountConcat(ts[..p], [t], t);
      CountMember(ts[..p], t);
      CountMember(ts[p + 1..], t);
      assert [t][..0] == [];
    }
  }

  /** Digits, one to ten of them. */
  predicate TenDigits(t: string) {
    t != "" && |t| < 11 && forall i :: 0 <= i < |t| ==> t[i] in "0123456789"
  }

  /**
   The policy in full: which argument files are accepted. They are the NUL-terminated token lists of at most a mebibyte
   without any of five options, with each of four options exactly once, `--proc` followed by `/proc`, and `--seccomp` by a
   descriptor number.
   */
  lemma AcceptableExactly(bytes: string)
    ensures Acceptable(bytes) <==>
              && 1 <= |bytes| <= 1048576 && bytes[|bytes| - 1] == '\0'
              && exists ts :: AllTokens(ts) && bytes == Encode(ts) && MeetsPolicy(ts)
  {
    if Acceptable(bytes) {
      SplitThenEncode(bytes);
      AcceptedMeets(Split(bytes).value);
    }
    if exists ts :: AllTokens(ts) && bytes == Encode(ts) && MeetsPolicy(ts) {
      var ts :| AllTokens(ts) && bytes == Encode(ts) && MeetsPolicy(ts);
      EncodeThenSplit(ts);
      AcceptedMeets(ts);
    }
  }

  ghost predicate MeetsPolicy(ts: seq<string>) {
    && NoRefused(ts)
    && (forall i :: 0 <= i < |ts| && ts[i] == "--proc" ==> i + 1 < |ts| && ts[i + 1] == "/proc")
    && (forall i :: 0 <= i < |ts| && ts[i] == "--seccomp" ==> i + 1 < |ts| && TenDigits(ts[i + 1]))
    && Once(ts, "--unshare-pid") && Once(ts, "--proc") && Once(ts, "--seccomp") && Once(ts, "--unshare-uts")
  }

  lemma AcceptedMeets(ts: seq<string>)
    ensures Accepted(ts) <==> MeetsPolicy(ts)
  {
    CountOnce(ts, "--unshare-pid");
    CountOnce(ts, "--proc");
    CountOnce(ts, "--seccomp");
    CountOnce(ts, "--unshare-uts");
    forall i | 0 <= i < |ts| ensures NumericFd(ts[i]) <==> TenDigits(ts[i]) {
      DigitsSame(ts[i]);
    }
    RefusedOptions(ts);
    hide Once, Count, NumericFd, TenDigits, Forbidden, NoRefused;
    if MeetsPolicy(ts) {
      forall i | 0 <= i < |ts| ensures TokenAllowed(ts, i) {
      }
    }
    if Accepted(ts) {
      AcceptedCounts(ts);
      assert NoRefused(ts);
      forall i | 0 <= i < |ts| ensures ts[i] == "--proc" ==> i + 1 < |ts| && ts[i + 1] == "/proc" {
        assert TokenAllowed(ts, i);
      }
      forall i | 0 <= i < |ts| ensures ts[i] == "--seccomp" ==> i + 1 < |ts| && TenDigits(ts[i + 1]) {
        assert TokenAllowed(ts, i);
      }
    }
  }

  lemma DigitsSame(t: string)
    ensures NumericFd(t) <==> TenDigits(t)
  {
    var digits := "0123456789";
    forall c: char ensures '0' <= c <= '9' <==> c in digits {
      if '0' <= c <= '9' { assert digits[c as int - '0' as int] == c; }
    }
  }

  lemma RefusedOptions(ts: seq<string>)
    ensures (forall i :: 0 <= i < |ts| ==> !Forbidden(ts[i])) <==> NoRefused(ts)
  {
    var options := ["--args", "--pidns", "--cap-add", "--cap-drop", "--not-a-security-boundary"];
    assert options[0] == "--args" && options[1] == "--pidns" && options[2] == "--cap-add" && options[3] == "--cap-drop"
           && options[4] == "--not-a-security-boundary";
    if NoneOf(ts, options) {
      forall i | 0 <= i < |ts| ensures !Forbidden(ts[i]) {
        assert ts[i] != options[0] && ts[i] != options[1] && ts[i] != options[2] && ts[i] != options[3] && ts[i] != options[4];
      }
    }
    if forall i :: 0 <= i < |ts| ==> !Forbidden(ts[i]) {
      forall i, j | 0 <= i < |ts| && 0 <= j < |options| ensures ts[i] != options[j] {
        assert !Forbidden(ts[i]);
      }
    }
  }

  // ---------- facts about the rewrite ----------

  lemma {:induction false} EncodeConcat(a: seq<string>, b: seq<string>)
    ensures Encode(a + b) == Encode(a) + Encode(b)
  {
    if b == [] {
      assert a + b == a;
    } else {
      var n := |b| - 1;
      assert (a + b)[..|a| + n] == a + b[..n];
      EncodeConcat(a, b[..n]);
    }
  }

  lemma {:induction false} RewrittenConcat(a: seq<string>, b: seq<string>)
    ensures Rewritten(a + b) == Rewritten(a) + Rewritten(b)
  {
    hide RewriteToken;
    if b == [] {
      assert a + b == a;
    } else {
      var n := |b| - 1;
      assert (a + b)[..|a| + n] == a + b[..n];
      RewrittenConcat(a, b[..n]);
      assert Rewritten(a + b) == Rewritten(a + b[..n]) + RewriteToken(b[n]);
    }
  }

  lemma {:induction false} CountConcat(a: seq<string>, b: seq<string>, t: string)
    ensures Count(a + b, t) == Count(a, t) + Count(b, t)
  {
    if b == [] {
      assert a + b == a;
    } else {
      var n := |b| - 1;
      assert (a + b)[..|a| + n] == a + b[..n];
      CountConcat(a, b[..n], t);
    }
  }

  lemma {:induction false} CountMember(ts: seq<string>, t: string)
    ensures Count(ts, t) > 0 <==> t in ts
  {
    if ts != [] {
      var n := |ts| - 1;
      assert ts == ts[..n] + [ts[n]];
      CountMember(ts[..n], t);
    }
  }

  /** Exact byte balance of the rewrite on every token list. */
  lemma {:induction false} RewrittenLength(ts: seq<string>)
    ensures |Encode(Rewritten(ts))| == |Encode(ts)| + 9 * Count(ts, "--proc") - 14 * Count(ts, "--unshare-pid")
  {
    if ts != [] {
      var n := |ts| - 1;
      RewrittenLength(ts[..n]);
      EncodeConcat(Rewritten(ts[..n]), RewriteToken(ts[n]));
      EncodeRewriteToken(ts[n]);
    }
  }

  lemma EncodeRewriteToken(t: string)
    ensures Encode([t]) == t + [NUL]
    ensures t == "--proc" ==> Encode(RewriteToken(t)) == "--ro-bind" + [NUL] + "/proc" + [NUL]
    ensures t == "--unshare-pid" ==> Encode(RewriteToken(t)) == []
  {
    EncodeCons(t, []);
    EncodeCons("--ro-bind", ["/proc"]);
    EncodeCons("/proc", []);
    assert ["--ro-bind"] + ["/proc"] == ["--ro-bind", "/proc"];
    assert [t] + [] == [t];
    assert ["/proc"] + [] == ["/proc"];
  }

  lemma RewrittenOnce(ts: seq<string>, i: nat, t: string)
    requires i < |ts| && ts[i] == t && Count(ts, t) == 1
    ensures t !in ts[..i] && t !in ts[i + 1..]
  {
    assert ts == ts[..i] + [t] + ts[i + 1..];
    CountConcat(ts[..i] + [t], ts[i + 1..], t);
    CountConcat(ts[..i], [t], t);
    assert [t][..0] == [];
    CountMember(ts[..i], t);
    CountMember(ts[i + 1..], t);
  }

  /** Tokens other than the two rewritten ones pass through untouched and in order. */
  lemma {:induction false} RewrittenIdentity(ts: seq<string>)
    requires "--unshare-pid" !in ts && "--proc" !in ts
    ensures Rewritten(ts) == ts
  {
    if ts != [] {
      var n := |ts| - 1;
      RewrittenIdentity(ts[..n]);
      assert ts[n] in ts;
      assert ts == ts[..n] + [ts[n]];
    }
  }

  /**
   What an accepted argument file becomes, said without the recursive rewrite: one "--unshare-pid" is dropped,
   one "--proc /proc" is replaced by "--ro-bind /proc /proc", and the three remaining stretches are copied in order.
   */
  ghost predicate DropsPidAndBindsProc(ts: seq<string>, out: seq<string>) {
    exists a: seq<string>, b: seq<string>, c: seq<string> ::
      || (ts == a + ["--unshare-pid"] + b + ["--proc", "/proc"] + c
          && out == a + b + ["--ro-bind", "/proc", "/proc"] + c)
      || (ts == a + ["--proc", "/proc"] + b + ["--unshare-pid"] + c
          && out == a + ["--ro-bind", "/proc", "/proc"] + b + c)
  }

  lemma AcceptedRewrite(ts: seq<string>)
    requires Accepted(ts)
    ensures DropsPidAndBindsProc(ts, Rewritten(ts))
  {
    var p := MarkerAt(ts, "--unshare-pid");
    var q := MarkerAt(ts, "--proc");
    assert TokenAllowed(ts, q);
    if p < q {
      PidFirst(ts, p, q);
    } else {
      ProcFirst(ts, p, q);
    }
  }

  lemma MarkerAt(ts: seq<string>, t: string) returns (p: nat)
    requires Count(ts, t) == 1
    ensures p < |ts| && ts[p] == t && forall i :: 0 <= i < |ts| && i != p ==> ts[i] != t
  {
    CountMember(ts, t);
    p :| 0 <= p < |ts| && ts[p] == t;
    RewrittenOnce(ts, p, t);
    forall i | 0 <= i < |ts| && i != p ensures ts[i] != t {
      if i < p { assert ts[..p][i] == ts[i]; } else { assert ts[p + 1..][i - p - 1] == ts[i]; }
    }
  }

  /** Where the two markers are, and that there is no other. */
  ghost predicate Markers(ts: seq<string>, p: nat, q: nat) {
    && p < |ts| && q + 1 < |ts| && p != q && p != q + 1
    && ts[p] == "--unshare-pid" && ts[q] == "--proc" && ts[q + 1] == "/proc"
    && (forall i :: 0 <= i < |ts| && i != p ==> ts[i] != "--unshare-pid")
    && (forall i :: 0 <= i < |ts| && i != q ==> ts[i] != "--proc")
  }

  lemma PidFirst(ts: seq<string>, p: nat, q: nat)
    requires Markers(ts, p, q) && p < q
    ensures DropsPidAndBindsProc(ts, Rewritten(ts))
  {
    hide Rewritten, DropsPidAndBindsProc;
    var a, b, c := ts[..p], ts[p + 1..q], ts[q + 2..];
    CutTwo(ts, p, 1, q, 2);
    assert ts[p..p + 1] == ["--unshare-pid"] && ts[q..q + 2] == ["--proc", "/proc"];
    Avoids(ts, p, q, 0, p);
    Avoids(ts, p, q, p + 1, q);
    Avoids(ts, p, q, q + 2, |ts|);
    FiveParts(ts, a, ts[p..p + 1], b, ts[q..q + 2], c);
  }

  lemma ProcFirst(ts: seq<string>, p: nat, q: nat)
    requires Markers(ts, p, q) && q < p
    ensures DropsPidAndBindsProc(ts, Rewritten(ts))
  {
    hide Rewritten, DropsPidAndBindsProc;
    var a, b, c := ts[..q], ts[q + 2..p], ts[p + 1..];
    CutTwo(ts, q, 2, p, 1);
    assert ts[p..p + 1] == ["--unshare-pid"] && ts[q..q + 2] == ["--proc", "/proc"];
    Avoids(ts, p, q, 0, q);
    Avoids(ts, p, q, q + 2, p);
    Avoids(ts, p, q, p + 1, |ts|);
    FiveParts(ts, a, ts[q..q + 2], b, ts[p..p + 1], c);
  }

  lemma CutTwo(ts: seq<string>, i: nat, m: nat, j: nat, n: nat)
    requires i + m <= j && j + n <= |ts|
    ensures ts == ts[..i] + ts[i..i + m] + ts[i + m..j] + ts[j..j + n] + ts[j + n..]
  {
  }

  /** A stretch between the markers is copied unchanged. */
  lemma Avoids(ts: seq<string>, p: nat, q: nat, lo: nat, hi: nat)
    requires Markers(ts, p, q) && lo <= hi <= |ts|
    requires hi <= p || p < lo
    requires hi <= q || q < lo
    ensures Rewritten(ts[lo..hi]) == ts[lo..hi]
    ensures lo == 0 ==> ts[..hi] == ts[lo..hi]
    ensures hi == |ts| ==> ts[lo..] == ts[lo..hi]
  {
    hide Rewritten;
    NotIn(ts, lo, hi);
  }

  /** Two markers, in either order, between three stretches that contain neither. */
  lemma FiveParts(ts: seq<string>, a: seq<string>, m: seq<string>, b: seq<string>, n: seq<string>, c: seq<string>)
    requires ts == a + m + b + n + c
    requires (m == ["--unshare-pid"] && n == ["--proc", "/proc"]) || (m == ["--proc", "/proc"] && n == ["--unshare-pid"])
    requires Rewritten(a) == a && Rewritten(b) == b && Rewritten(c) == c
    ensures DropsPidAndBindsProc(ts, Rewritten(ts))
  {
    hide Rewritten, DropsPidAndBindsProc;
    RewrittenMarkers();
    RewrittenFive(a, m, b, n, c);
    Witness(ts, Rewritten(ts), a, b, c);
  }

  lemma Witness(ts: seq<string>, out: seq<string>, a: seq<string>, b: seq<string>, c: seq<string>)
    requires
      || (ts == a + ["--unshare-pid"] + b + ["--proc", "/proc"] + c
          && out == a + [] + b + ["--ro-bind", "/proc", "/proc"] + c)
      || (ts == a + ["--proc", "/proc"] + b + ["--unshare-pid"] + c
          && out == a + ["--ro-bind", "/proc", "/proc"] + b + [] + c)
    ensures DropsPidAndBindsProc(ts, out)
  {
    assert a + [] == a;
    var ab := a + ["--ro-bind", "/proc", "/proc"] + b;
    assert ab + [] == ab;
  }

  /** A stretch that avoids both markers contains neither. */
  lemma NotIn(ts: seq<string>, lo: nat, hi: nat)
    requires lo <= hi <= |ts|
    requires forall i :: lo <= i < hi ==> ts[i] != "--unshare-pid" && ts[i] != "--proc"
    ensures "--unshare-pid" !in ts[lo..hi] && "--proc" !in ts[lo..hi]
    ensures Rewritten(ts[lo..hi]) == ts[lo..hi]
  {
    forall t | t in ts[lo..hi] ensures t != "--unshare-pid" && t != "--proc" {
      var i :| 0 <= i < |ts[lo..hi]| && ts[lo..hi][i] == t;
      assert ts[lo + i] == t;
    }
    RewrittenIdentity(ts[lo..hi]);
  }

  lemma RewrittenMarkers()
    ensures Rewritten(["--unshare-pid"]) == []
    ensures Rewritten(["--proc", "/proc"]) == ["--ro-bind", "/proc", "/proc"]
  {
    assert ["--unshare-pid"][..0] == [];
    assert ["--proc", "/proc"][..1] == ["--proc"];
    assert ["--proc"][..0] == [];
  }

  lemma RewrittenFive(a: seq<string>, b: seq<string>, c: seq<string>, d: seq<string>, e: seq<string>)
    ensures Rewritten(a + b + c + d + e) == Rewritten(a) + Rewritten(b) + Rewritten(c) + Rewritten(d) + Rewritten(e)
  {
    RewrittenConcat(a + b + c + d, e);
    RewrittenConcat(a + b + c, d);
    RewrittenConcat(a + b, c);
    RewrittenConcat(a, b);
  }

  // ---------- what the rewritten file guarantees ----------

  lemma {:induction false} RewrittenMembers(ts: seq<string>, t: string)
    ensures t in Rewritten(ts) <==> exists i :: 0 <= i < |ts| && t in RewriteToken(ts[i])
  {
    if ts != [] {
      var n := |ts| - 1;
      RewrittenMembers(ts[..n], t);
      if t in Rewritten(ts[..n]) {
        var i :| 0 <= i < n && t in RewriteToken(ts[..n][i]);
        assert t in RewriteToken(ts[i]);
      }
      if i :| 0 <= i < |ts| && t in RewriteToken(ts[i]) && i < n {
        assert t in RewriteToken(ts[..n][i]);
      }
    }
  }

  /** Every token of the output is well formed, none is forbidden, and neither rewritten option survives. */
  lemma RewrittenIsClean(ts: seq<string>)
    requires AllTokens(ts) && Accepted(ts)
    ensures AllTokens(Rewritten(ts))
    ensures forall t :: t in Rewritten(ts) ==> !Forbidden(t) && t != "--unshare-pid" && t != "--proc"
    ensures NoRefused(Rewritten(ts))
  {
    RefusedOptions(Rewritten(ts));
    forall t | t in Rewritten(ts)
      ensures IsToken(t) && !Forbidden(t) && t != "--unshare-pid" && t != "--proc"
    {
      RewrittenMembers(ts, t);
      var i :| 0 <= i < |ts| && t in RewriteToken(ts[i]);
      assert IsToken(ts[i]) && TokenAllowed(ts, i);
    }
    forall i | 0 <= i < |Rewritten(ts)| ensures IsToken(Rewritten(ts)[i]) {
      assert Rewritten(ts)[i] in Rewritten(ts);
    }
  }

  /** The filter descriptor still directly follows its option in the output. */
  lemma RewrittenKeepsSeccomp(ts: seq<string>, j: nat)
    requires forall i :: 0 <= i < |ts| ==> TokenAllowed(ts, i)
    requires j < |Rewritten(ts)| && Rewritten(ts)[j] == "--seccomp"
    ensures j + 1 < |Rewritten(ts)| && NumericFd(Rewritten(ts)[j + 1])
  {
    assert ts[..|ts|] == ts;
    RewrittenSeccompAt(ts, |ts|, j);
  }

  lemma {:induction false} RewrittenSeccompAt(ts: seq<string>, k: nat, j: nat)
    requires k <= |ts|
    requires forall i :: 0 <= i < |ts| ==> TokenAllowed(ts, i)
    requires j < |Rewritten(ts[..k])| && Rewritten(ts[..k])[j] == "--seccomp"
    ensures j + 1 < |Rewritten(ts)| && NumericFd(Rewritten(ts)[j + 1])
    decreases k
  {
    hide TokenAllowed, NumericFd;
    var p := ts[..k - 1];
    assert ts[..k][..k - 1] == p;
    if j < |Rewritten(p)| {
      RewrittenSeccompAt(ts, k - 1, j);
    } else {
      SeccompHere(ts, k - 1);
    }
  }

  lemma SeccompHere(ts: seq<string>, k: nat)
    requires k < |ts| && ts[k] == "--seccomp" && TokenAllowed(ts, k)
    ensures var j := |Rewritten(ts[..k])|; j + 1 < |Rewritten(ts)| && NumericFd(Rewritten(ts)[j + 1])
  {
    var head, pair, tail := ts[..k], ts[k..k + 2], ts[k + 2..];
    assert ts == head + pair + tail;
    RewrittenConcat(head + pair, tail);
    RewrittenConcat(head, pair);
    assert pair[0] == ts[k] && NumericFd(pair[1]);
    PairUntouched(pair);
  }

  lemma PairUntouched(pair: seq<string>)
    requires |pair| == 2 && pair[0] == "--seccomp" && NumericFd(pair[1])
    ensures Rewritten(pair) == pair
  {
    assert pair[1][0] != '-';
    RewrittenIdentity(pair);
  }

  /** Properties of an accepted byte string and of its rewrite, at byte level. */
  lemma RewriteTheorem(bytes: string)
    requires Acceptable(bytes)
    ensures var out := Encode(Rewritten(Split(bytes).value));
      && |out| == |bytes| - 5
      && Split(out) == Some(Rewritten(Split(bytes).value))
      && DropsPidAndBindsProc(Split(bytes).value, Split(out).value)
      && (forall t :: t in Split(out).value ==> IsToken(t) && !Forbidden(t))
      && !Acceptable(out)
    ensures NoRefusedOption(bytes) && NoRefusedOption(Encode(Rewritten(Split(bytes).value)))
  {
    var ts := Split(bytes).value;
    SplitThenEncode(bytes);
    RewrittenLength(ts);
    RewrittenIsClean(ts);
    AcceptedCounts(ts);
    RefusedOptions(ts);
    EncodeThenSplit(Rewritten(ts));
    AcceptedRewrite(ts);
    RewrittenRejected(ts);
    forall t | t in Rewritten(ts) ensures IsToken(t) {
      var i :| 0 <= i < |Rewritten(ts)| && Rewritten(ts)[i] == t;
    }
    hide Split, Encode, Rewritten, TokenAllowed, NoRefused, Forbidden, IsToken, DropsPidAndBindsProc, Acceptable;
  }

  lemma AcceptedCounts(ts: seq<string>)
    requires Accepted(ts)
    ensures Count(ts, "--proc") == 1 && Count(ts, "--unshare-pid") == 1
    ensures forall i :: 0 <= i < |ts| ==> !Forbidden(ts[i])
  {
    hide Count, NumericFd, Forbidden;
    forall i | 0 <= i < |ts| ensures !Forbidden(ts[i]) {
      assert TokenAllowed(ts, i);
    }
  }

  /** A rewritten file has lost its `--unshare-pid`, so it is never accepted again. */
  lemma RewrittenRejected(ts: seq<string>)
    requires AllTokens(ts) && Accepted(ts)
    ensures !Acceptable(Encode(Rewritten(ts)))
  {
    RewrittenIsClean(ts);
    EncodeThenSplit(Rewritten(ts));
    CountMember(Rewritten(ts), "--unshare-pid");
    assert "--unshare-pid" !in Rewritten(ts);
    hide Encode, Split, Rewritten, TokenAllowed, NoRefused;
    var out := Rewritten(ts);
    assert Count(out, "--unshare-pid") == 0;
    assert !Accepted(out);
    assert Split(Encode(out)) == Some(out);
  }

  // ---------- the byte-level loop ----------

  lemma {:induction false} EncodeCoversTokens(ts: seq<string>)
    ensures |ts| <= |Encode(ts)|
  {
    if ts != [] {
      EncodeCoversTokens(ts[..|ts| - 1]);
    }
  }

  /** If the whole file is accepted, the output produced for any prefix is no longer than the final output. */
  lemma PrefixFits(a: seq<string>, rest: seq<string>)
    requires Accepted(a + rest)
    ensures |Encode(Rewritten(a))| <= |Encode(a + rest)| - 5
  {
    RewrittenLength(a + rest);
    RewrittenConcat(a, rest);
    EncodeConcat(Rewritten(a), Rewritten(rest));
  }

  method NumericDescriptor(token: string) returns (numeric: bool)
    ensures numeric <==> NumericFd(token)
  {
    if |token| == 0 || |token| > 10 {
      return false;
    }
    for index := 0 to |token|
      invariant forall i :: 0 <= i < index ==> '0' <= token[i] <= '9'
    {
      if token[index] < '0' || token[index] > '9' {
        return false;
      }
    }
    return true;
  }

  method AppendToken(output: array<char>, capacity: nat, length: nat, token: string) returns (ok: bool, newLength: nat)
    requires capacity <= output.Length
    modifies output
    ensures ok <==> token != [] && length + |token| < capacity
    ensures ok ==> newLength == length + |token| + 1
    ensures ok ==> output[..newLength] == old(output[..length]) + token + [NUL]
    ensures forall i :: newLength <= i < output.Length ==> output[i] == old(output[i])
    ensures !ok ==> newLength == length && output[..] == old(output[..])
  {
    if |token| == 0 || length > capacity || |token| >= capacity - length {
      return false, length;
    }
    forall i | 0 <= i < |token| {
      output[length + i] := token[i];
    }
    newLength := length + |token|;
    output[newLength] := NUL;
    newLength := newLength + 1;
    ok := true;
    assert output[..newLength] == old(output[..length]) + token + [NUL];
  }

  /** The three appends that put a read-only bind in the place of a procfs mount. */
  method AppendBind(output: array<char>, capacity: nat, length: nat) returns (ok: bool, newLength: nat)
    requires capacity <= output.Length && length <= capacity
    modifies output
    ensures ok <==> length + 22 <= capacity
    ensures length <= newLength <= capacity
    ensures ok ==> newLength == length + 22
    ensures ok ==> output[..newLength] == old(output[..length]) + "--ro-bind" + [NUL] + "/proc" + [NUL] + "/proc" + [NUL]
    ensures forall i :: capacity <= i < output.Length ==> output[i] == old(output[i])
  {
    ok, newLength := AppendToken(output, capacity, length, "--ro-bind");
    if ok {
      ok, newLength := AppendToken(output, capacity, newLength, "/proc");
    }
    if ok {
      ok, newLength := AppendToken(output, capacity, newLength, "/proc");
    }
  }

  /** What next_token establishes: `token` starts at `position`, and the rest of the file starts at `next`. */
  ghost predicate TokenAt(bytes: string, position: nat, token: string, next: nat) {
    && position < next <= |bytes|
    && token == bytes[position..next - 1]
    && IsToken(token)
    && Split(bytes[position..]) == Prepend([token], Split(bytes[next..]))
  }

  method NextToken(input: array<char>, position: nat) returns (ok: bool, token: string, next: nat)
    ensures ok ==> TokenAt(input[..], position, token, next) && token != []
    ensures !ok ==> position >= input.Length || Split(input[..][position..]).None?
  {
    if position >= input.Length {
      return false, [], position;
    }
    ghost var bytes := input[..];
    var rest := input[position..];
    assert rest == bytes[position..];
    var length := FirstNul(rest);
    if length == |rest| || length == 0 {
      return false, [], position;
    }
    ok, token, next := true, rest[..length], position + length + 1;
    assert rest[length + 1..] == bytes[next..];
  }

  /** The loop invariant: `done` is what has been consumed, `out` its rewrite, and no rule is broken so far. */
  ghost predicate Scanned(bytes: string, position: nat, done: seq<string>, out: string) {
    && |done| <= position <= |bytes|
    && Split(bytes) == Prepend(done, Split(bytes[position..]))
    && (Split(bytes[position..]).Some? ==> PrefixAllowed(done, Split(bytes[position..]).value))
    && out == Encode(Rewritten(done))
  }

  ghost predicate PrefixAllowed(done: seq<string>, rest: seq<string>) {
    forall i :: 0 <= i < |done| ==> TokenAllowed(done + rest, i)
  }

  ghost predicate Counted(done: seq<string>, unsharePid: int, proc: int, seccomp: int, unshareUts: int) {
    && unsharePid == Count(done, "--unshare-pid")
    && proc == Count(done, "--proc")
    && seccomp == Count(done, "--seccomp")
    && unshareUts == Count(done, "--unshare-uts")
  }

  method RewriteWebkitArguments(input: array<char>, output: array<char>, capacity: nat) returns (ok: bool, outputLength: nat)
    requires input != output && capacity <= output.Length
    modifies output
    ensures ok <==> Acceptable(input[..]) && input.Length - 5 <= capacity
    ensures ok ==> outputLength <= capacity && output[..outputLength] == Encode(Rewritten(Split(input[..]).value))
    ensures ok ==> NoRefusedOption(input[..]) && NoRefusedOption(output[..outputLength])
    ensures forall i :: capacity <= i < output.Length ==> output[i] == old(output[i])
  {
    hide NoRefusedOption, Acceptable, Split, Encode, Rewritten, Scanned, Counted, TokenAt, RuleKept, NumericFd;
    ghost var bytes := input[..];
    outputLength := 0;
    if input.Length == 0 || input.Length > MAX_ARGUMENT_BYTES || input[input.Length - 1] != NUL {
      Unterminated(bytes);
      return false, 0;
    }
    var unsharePid: uint32, proc: uint32, seccomp: uint32, unshareUts: uint32 := 0, 0, 0, 0;
    var position := 0;
    ghost var done: seq<string> := [];
    ScanStart(bytes);
    assert output[..0] == [];

    while position < input.Length
      invariant position <= input.Length && outputLength <= capacity
      invariant Scanned(bytes, position, done, output[..outputLength])
      invariant Counted(done, unsharePid as int, proc as int, seccomp as int, unshareUts as int)
      invariant forall i :: capacity <= i < output.Length ==> output[i] == old(output[i])
    {
      var found, token, afterToken := NextToken(input, position);
      if !found {
        ScanBroken(bytes, position, done, output[..outputLength]);
        return false, outputLength;
      }
      CountedFits(bytes, position, done, output[..outputLength], unsharePid as int, proc as int, seccomp as int, unshareUts as int);

      if token == "--args" || token == "--pidns" || token == "--cap-add" || token == "--cap-drop"
         || token == "--not-a-security-boundary" {
        ForbiddenToken(bytes, position, done, output[..outputLength], token, afterToken);
        return false, outputLength;
      }

      if token == "--unshare-pid" {
        PidDropped(bytes, position, done, output[..outputLength], token, afterToken);
        PidCounted(done, token, unsharePid as int, proc as int, seccomp as int, unshareUts as int);
        unsharePid := unsharePid + 1;
        position := afterToken;
        done := done + [token];
        continue;
      }

      if token == "--proc" {
        var hasDestination, destination, afterDestination := NextToken(input, afterToken);
        if !hasDestination {
          MissingOperand(bytes, position, done, output[..outputLength], token, afterToken);
          return false, outputLength;
        }
        if destination != "/proc" {
          WrongDestination(bytes, position, done, output[..outputLength], token, afterToken, destination, afterDestination);
          return false, outputLength;
        }
        ProcRebound(bytes, position, done, output[..outputLength], token, afterToken, destination, afterDestination, capacity);
        ProcCounted(done, token, destination, unsharePid as int, proc as int, seccomp as int, unshareUts as int);
        proc := proc + 1;
        var appended: bool;
        appended, outputLength := AppendBind(output, capacity, outputLength);
        if !appended {
          return false, outputLength;
        }
        position := afterDestination;
        done := done + [token] + [destination];
        continue;
      }

      if token == "--seccomp" {
        var hasDescriptor, descriptor, ignored := NextToken(input, afterToken);
        if !hasDescriptor {
          MissingOperand(bytes, position, done, output[..outputLength], token, afterToken);
          return false, outputLength;
        }
        var numeric := NumericDescriptor(descriptor);
        if !numeric {
          WrongDescriptor(bytes, position, done, output[..outputLength], token, afterToken, descriptor, ignored);
          return false, outputLength;
        }
        DescriptorFollows(bytes, position, done, output[..outputLength], token, afterToken, descriptor, ignored);
        SeccompCounted(done, token, unsharePid as int, proc as int, seccomp as int, unshareUts as int);
        seccomp := seccomp + 1;
      } else {
        PlainToken(bytes, position, done, output[..outputLength], token, afterToken);
        OtherCounted(done, token, unsharePid as int, proc as int, seccomp as int, unshareUts as int);
      }
      if token == "--unshare-uts" {
        unshareUts := unshareUts + 1;
      }

      TokenCopied(bytes, position, done, output[..outputLength], token, afterToken, capacity);
      var copied: bool;
      copied, outputLength := AppendToken(output, capacity, outputLength, token);
      if !copied {
        return false, outputLength;
      }
      position := afterToken;
      done := done + [token];
    }

    ScanEnd(bytes, position, done, output[..outputLength], unsharePid as int, proc as int, seccomp as int, unshareUts as int);
    if unsharePid != 1 || proc != 1 || seccomp != 1 || unshareUts != 1 {
      return false, outputLength;
    }
    NothingRefused(bytes, output[..outputLength]);
    ok := true;
  }

  lemma NothingRefused(bytes: string, out: string)
    requires Acceptable(bytes) ==> out == Encode(Rewritten(Split(bytes).value))
    ensures Acceptable(bytes) ==> NoRefusedOption(bytes) && NoRefusedOption(out)
  {
    if Acceptable(bytes) {
      RewriteTheorem(bytes);
    }
  }

  // ---------- one lemma for every exit and every turn of the loop ----------

  lemma Unterminated(bytes: string)
    requires |bytes| == 0 || |bytes| > MAX_ARGUMENT_BYTES || bytes[|bytes| - 1] != NUL
    ensures !Acceptable(bytes)
  {
    if Acceptable(bytes) {
      SplitThenEncode(bytes);
    }
  }

  lemma ScanStart(bytes: string)
    ensures Scanned(bytes, 0, [], [])
    ensures Counted([], 0, 0, 0, 0)
  {
    assert bytes[0..] == bytes;
    if Split(bytes).Some? { assert [] + Split(bytes).value == Split(bytes).value; }
  }

  lemma ScanBroken(bytes: string, position: nat, done: seq<string>, out: string)
    requires Scanned(bytes, position, done, out) && position < |bytes|
    requires Split(bytes[position..]).None?
    ensures !Acceptable(bytes)
  {
  }

  lemma PrependTwice(a: seq<string>, b: seq<string>, rest: Option<seq<string>>)
    ensures Prepend(a, Prepend(b, rest)) == Prepend(a + b, rest)
  {
    if rest.Some? { assert a + (b + rest.value) == a + b + rest.value; }
  }

  /** The new token joins the consumed ones; what it must satisfy itself is left as a premise. */
  lemma Consume(bytes: string, position: nat, done: seq<string>, out: string, token: string, next: nat)
    requires Scanned(bytes, position, done, out) && TokenAt(bytes, position, token, next)
    ensures |done + [token]| <= next <= |bytes|
    ensures Split(bytes) == Prepend(done + [token], Split(bytes[next..]))
    ensures Split(bytes[next..]).Some? && TokenAllowed(done + [token] + Split(bytes[next..]).value, |done|) ==>
              PrefixAllowed(done + [token], Split(bytes[next..]).value)
  {
    hide TokenAllowed, Split, IsToken, Rewritten, Encode;
    var tail := Split(bytes[next..]);
    PrependTwice(done, [token], tail);
    if tail.Some? && TokenAllowed(done + [token] + tail.value, |done|) {
      var all := done + [token] + tail.value;
      assert Split(bytes[position..]).value == [token] + tail.value;
      assert done + ([token] + tail.value) == all;
      forall i | 0 <= i < |done + [token]| ensures TokenAllowed(all, i) {
      }
    }
  }

  /** A consumed token that breaks its rule makes the whole file unacceptable, however it ends. */
  lemma Refuse(bytes: string, position: nat, done: seq<string>, out: string, token: string, next: nat)
    requires Scanned(bytes, position, done, out) && TokenAt(bytes, position, token, next)
    requires Split(bytes[next..]).Some? ==> !TokenAllowed(done + [token] + Split(bytes[next..]).value, |done|)
    ensures !Acceptable(bytes)
  {
    hide Scanned, TokenAllowed, Split, TokenAt;
    Consume(bytes, position, done, out, token, next);
    if Split(bytes).Some? {
      assert !TokenAllowed(Split(bytes).value, |done|);
    }
  }

  lemma ForbiddenToken(bytes: string, position: nat, done: seq<string>, out: string, token: string, next: nat)
    requires Scanned(bytes, position, done, out) && TokenAt(bytes, position, token, next)
    requires Forbidden(token)
    ensures !Acceptable(bytes)
  {
    hide Forbidden, Split, Scanned, TokenAt;
    Refuse(bytes, position, done, out, token, next);
  }

  /** "--proc" or "--seccomp" with nothing after it, or with a broken token after it. */
  lemma MissingOperand(bytes: string, position: nat, done: seq<string>, out: string, token: string, next: nat)
    requires Scanned(bytes, position, done, out) && TokenAt(bytes, position, token, next)
    requires token == "--proc" || token == "--seccomp"
    requires next >= |bytes| || Split(bytes[next..]).None?
    ensures !Acceptable(bytes)
  {
    hide Scanned, Forbidden, NumericFd;
    if next >= |bytes| {
      assert bytes[next..] == [];
    }
    Refuse(bytes, position, done, out, token, next);
  }

  /** The two tokens at `position` and `next` are the ones the rule of the first is about. */
  lemma OperandIs(bytes: string, done: seq<string>, token: string, next: nat, operand: string, after: nat)
    requires TokenAt(bytes, next, operand, after)
    requires Split(bytes[next..]).Some?
    ensures (done + [token] + Split(bytes[next..]).value)[|done|] == token
    ensures |done| + 1 < |done + [token] + Split(bytes[next..]).value|
    ensures (done + [token] + Split(bytes[next..]).value)[|done| + 1] == operand
  {
    hide Split, IsToken;
  }

  lemma WrongDestination(bytes: string, position: nat, done: seq<string>, out: string, token: string, next: nat,
                         destination: string, after: nat)
    requires Scanned(bytes, position, done, out) && TokenAt(bytes, position, token, next)
    requires TokenAt(bytes, next, destination, after)
    requires token == "--proc" && destination != "/proc"
    ensures !Acceptable(bytes)
  {
    hide Scanned, Forbidden, NumericFd, Split;
    if Split(bytes[next..]).Some? {
      OperandIs(bytes, done, token, next, destination, after);
    }
    Refuse(bytes, position, done, out, token, next);
  }

  lemma WrongDescriptor(bytes: string, position: nat, done: seq<string>, out: string, token: string, next: nat,
                        descriptor: string, after: nat)
    requires Scanned(bytes, position, done, out) && TokenAt(bytes, position, token, next)
    requires TokenAt(bytes, next, descriptor, after)
    requires token == "--seccomp" && !NumericFd(descriptor)
    ensures !Acceptable(bytes)
  {
    hide Scanned, Forbidden, NumericFd, Split;
    if Split(bytes[next..]).Some? {
      OperandIs(bytes, done, token, next, descriptor, after);
    }
    Refuse(bytes, position, done, out, token, next);
  }

  /** The rule of the token at `position` holds, whatever follows. */
  ghost predicate RuleKept(bytes: string, done: seq<string>, token: string, next: nat) {
    next <= |bytes| && (Split(bytes[next..]).Some? ==> TokenAllowed(done + [token] + Split(bytes[next..]).value, |done|))
  }

  lemma DescriptorFollows(bytes: string, position: nat, done: seq<string>, out: string, token: string, next: nat,
                          descriptor: string, after: nat)
    requires Scanned(bytes, position, done, out) && TokenAt(bytes, position, token, next)
    requires TokenAt(bytes, next, descriptor, after)
    requires token == "--seccomp" && NumericFd(descriptor)
    ensures RuleKept(bytes, done, token, next)
  {
    hide Scanned, NumericFd, Split;
    if Split(bytes[next..]).Some? {
      OperandIs(bytes, done, token, next, descriptor, after);
    }
  }

  lemma PlainToken(bytes: string, position: nat, done: seq<string>, out: string, token: string, next: nat)
    requires Scanned(bytes, position, done, out) && TokenAt(bytes, position, token, next)
    requires !Forbidden(token) && token != "--proc" && token != "--seccomp"
    ensures RuleKept(bytes, done, token, next)
  {
    hide Scanned, NumericFd, Split, Forbidden, IsToken;
  }

  lemma PidDropped(bytes: string, position: nat, done: seq<string>, out: string, token: string, next: nat)
    requires Scanned(bytes, position, done, out) && TokenAt(bytes, position, token, next)
    requires token == "--unshare-pid"
    ensures Scanned(bytes, next, done + [token], out)
  {
    hide Split, Encode, PrefixAllowed, TokenAllowed;
    Consume(bytes, position, done, out, token, next);
    PlainPid(bytes, position, done, out, token, next);
    assert (done + [token])[..|done|] == done;
    assert Rewritten(done) + [] == Rewritten(done);
  }

  lemma PlainPid(bytes: string, position: nat, done: seq<string>, out: string, token: string, next: nat)
    requires Scanned(bytes, position, done, out) && TokenAt(bytes, position, token, next)
    requires token == "--unshare-pid"
    ensures RuleKept(bytes, done, token, next)
  {
    hide Scanned, TokenAt;
    assert !Forbidden(token);
    PlainToken(bytes, position, done, out, token, next);
  }

  /** A copied token: the buffer grows by the token and its terminator, or the file was too long anyway. */
  lemma TokenCopied(bytes: string, position: nat, done: seq<string>, out: string, token: string, next: nat, capacity: nat)
    requires Scanned(bytes, position, done, out) && TokenAt(bytes, position, token, next)
    requires RuleKept(bytes, done, token, next) && token != "--proc" && token != "--unshare-pid"
    ensures Scanned(bytes, next, done + [token], out + token + [NUL])
    ensures |out + token + [NUL]| > capacity ==> !(Acceptable(bytes) && |bytes| - 5 <= capacity)
  {
    hide Split, PrefixAllowed, TokenAllowed, Acceptable, IsToken, Encode;
    Consume(bytes, position, done, out, token, next);
    RewrittenNext(done, token);
    NoRoom(bytes, done + [token], next, capacity);
  }

  lemma RewrittenNext(done: seq<string>, token: string)
    requires token != "--proc" && token != "--unshare-pid"
    ensures Encode(Rewritten(done + [token])) == Encode(Rewritten(done)) + token + [NUL]
  {
    hide Encode;
    assert (done + [token])[..|done|] == done;
    assert Rewritten(done + [token]) == Rewritten(done) + [token];
    EncodeConcat(Rewritten(done), [token]);
    EncodeRewriteToken(token);
  }

  lemma ProcRebound(bytes: string, position: nat, done: seq<string>, out: string, token: string, next: nat,
                    destination: string, after: nat, capacity: nat)
    requires Scanned(bytes, position, done, out) && TokenAt(bytes, position, token, next)
    requires TokenAt(bytes, next, destination, after)
    requires token == "--proc" && destination == "/proc"
    ensures Scanned(bytes, after, done + [token] + [destination],
                    out + "--ro-bind" + [NUL] + "/proc" + [NUL] + "/proc" + [NUL])
    ensures |out| + 22 > capacity ==> !(Acceptable(bytes) && |bytes| - 5 <= capacity)
  {
    hide Split, PrefixAllowed, TokenAllowed, Acceptable, IsToken, Encode, Rewritten;
    ProcOperand(bytes, position, done, out, token, next, destination, after);
    RewrittenProc(done);
    Consume(bytes, position, done, out, token, next);
    var more := done + [token];
    var bind := Encode(Rewritten(more));
    assert Scanned(bytes, next, more, bind);
    Consume(bytes, next, more, bind, destination, after);
    DestinationPlain(bytes, next, more, bind, destination, after);
    RewrittenNext(more, destination);
    NoRoom(bytes, more + [destination], after, capacity);
  }

  lemma ProcOperand(bytes: string, position: nat, done: seq<string>, out: string, token: string, next: nat,
                    destination: string, after: nat)
    requires Scanned(bytes, position, done, out) && TokenAt(bytes, position, token, next)
    requires TokenAt(bytes, next, destination, after)
    requires token == "--proc" && destination == "/proc"
    ensures RuleKept(bytes, done, token, next)
  {
    hide Scanned, Split, NumericFd;
    if Split(bytes[next..]).Some? {
      OperandIs(bytes, done, token, next, destination, after);
    }
  }

  lemma DestinationPlain(bytes: string, position: nat, done: seq<string>, out: string, token: string, next: nat)
    requires Scanned(bytes, position, done, out) && TokenAt(bytes, position, token, next)
    requires token == "/proc"
    ensures RuleKept(bytes, done, token, next)
  {
    hide Scanned, TokenAt;
    assert !Forbidden(token);
    PlainToken(bytes, position, done, out, token, next);
  }

  lemma RewrittenProc(done: seq<string>)
    ensures Encode(Rewritten(done + ["--proc"])) == Encode(Rewritten(done)) + "--ro-bind" + [NUL] + "/proc" + [NUL]
  {
    hide Encode;
    var one := done + ["--proc"];
    assert one[..|done|] == done;
    EncodeConcat(Rewritten(done), RewriteToken("--proc"));
    EncodeRewriteToken("--proc");
  }

  /** An output that no longer fits would not fit for the whole file either. */
  lemma NoRoom(bytes: string, done: seq<string>, position: nat, capacity: nat)
    requires position <= |bytes| && Split(bytes) == Prepend(done, Split(bytes[position..]))
    ensures |Encode(Rewritten(done))| > capacity ==> !(Acceptable(bytes) && |bytes| - 5 <= capacity)
  {
    hide Split, Encode, Rewritten, Accepted;
    if Acceptable(bytes) {
      SplitThenEncode(bytes);
      PrefixFits(done, Split(bytes[position..]).value);
    }
  }

  // ---------- the four counters ----------

  lemma CountNext(done: seq<string>, token: string, t: string)
    ensures Count(done + [token], t) == Count(done, t) + if token == t then 1 else 0
  {
    assert (done + [token])[..|done|] == done;
  }

  lemma CountedFits(bytes: string, position: nat, done: seq<string>, out: string,
                    unsharePid: int, proc: int, seccomp: int, unshareUts: int)
    requires Scanned(bytes, position, done, out)
    requires Counted(done, unsharePid, proc, seccomp, unshareUts)
    ensures 0 <= unsharePid <= |bytes| && 0 <= proc <= |bytes|
    ensures 0 <= seccomp <= |bytes| && 0 <= unshareUts <= |bytes|
  {
  }

  lemma CountedNext(done: seq<string>, token: string)
    ensures Count(done + [token], "--unshare-pid") == Count(done, "--unshare-pid") + if token == "--unshare-pid" then 1 else 0
    ensures Count(done + [token], "--proc") == Count(done, "--proc") + if token == "--proc" then 1 else 0
    ensures Count(done + [token], "--seccomp") == Count(done, "--seccomp") + if token == "--seccomp" then 1 else 0
    ensures Count(done + [token], "--unshare-uts") == Count(done, "--unshare-uts") + if token == "--unshare-uts" then 1 else 0
  {
    CountNext(done, token, "--unshare-pid");
    CountNext(done, token, "--proc");
    CountNext(done, token, "--seccomp");
    CountNext(done, token, "--unshare-uts");
  }

  lemma PidCounted(done: seq<string>, token: string, unsharePid: int, proc: int, seccomp: int, unshareUts: int)
    requires Counted(done, unsharePid, proc, seccomp, unshareUts)
    requires token == "--unshare-pid"
    ensures Counted(done + [token], unsharePid + 1, proc, seccomp, unshareUts)
  {
    hide Count;
    CountedNext(done, token);
  }

  lemma ProcCounted(done: seq<string>, token: string, operand: string, unsharePid: int, proc: int, seccomp: int, unshareUts: int)
    requires Counted(done, unsharePid, proc, seccomp, unshareUts)
    requires token == "--proc" && operand == "/proc"
    ensures Counted(done + [token] + [operand], unsharePid, proc + 1, seccomp, unshareUts)
  {
    hide Count;
    CountedNext(done, token);
    CountedNext(done + [token], operand);
  }

  lemma SeccompCounted(done: seq<string>, token: string, unsharePid: int, proc: int, seccomp: int, unshareUts: int)
    requires Counted(done, unsharePid, proc, seccomp, unshareUts)
    requires token == "--seccomp"
    ensures Counted(done + [token], unsharePid, proc, seccomp + 1, unshareUts)
  {
    hide Count;
    CountedNext(done, token);
  }

  lemma OtherCounted(done: seq<string>, token: string, unsharePid: int, proc: int, seccomp: int, unshareUts: int)
    requires Counted(done, unsharePid, proc, seccomp, unshareUts)
    requires token != "--unshare-pid" && token != "--proc" && token != "--seccomp"
    ensures Counted(done + [token], unsharePid, proc, seccomp, unshareUts + if token == "--unshare-uts" then 1 else 0)
  {
    hide Count;
    CountedNext(done, token);
  }

  /** At the end of the file the counters decide, and the accepted output is five bytes shorter than the input. */
  lemma ScanEnd(bytes: string, position: nat, done: seq<string>, out: string,
                unsharePid: int, proc: int, seccomp: int, unshareUts: int)
    requires Scanned(bytes, position, done, out) && position == |bytes|
    requires Counted(done, unsharePid, proc, seccomp, unshareUts)
    requires 0 < |bytes| <= MAX_ARGUMENT_BYTES
    ensures Acceptable(bytes) <==> unsharePid == 1 && proc == 1 && seccomp == 1 && unshareUts == 1
    ensures Acceptable(bytes) ==> out == Encode(Rewritten(Split(bytes).value)) && |out| == |bytes| - 5
  {
    hide TokenAllowed, Count, Encode, Rewritten;
    assert bytes[position..] == [];
    assert done + [] == done;
    assert Split(bytes) == Some(done);
    if Acceptable(bytes) {
      SplitThenEncode(bytes);
      RewrittenLength(done);
    }
  }

  /** main allocates input_length + 64 bytes: then no file that meets the policy is refused for space. */
  method RewriteInAllocatedBuffer(input: array<char>) returns (ok: bool, output: array<char>, outputLength: nat)
    ensures ok <==> Acceptable(input[..])
    ensures ok ==> outputLength == input.Length - 5 && outputLength <= output.Length
    ensures ok ==> NoRefusedOption(input[..]) && NoRefusedOption(output[..outputLength])
    ensures ok ==> output[..outputLength] == Encode(Rewritten(Split(input[..]).value))
    ensures fresh(output)
  {
    output := new char[input.Length + 64];
    ok, outputLength := RewriteWebkitArguments(input, output, input.Length + 64);
    if ok {
      RewriteTheorem(input[..]);
    }
  }
}
