/** The object name of a NomadNode, computed from a Nomad node name.

    The methods `SanitizeLabel` and `SanitizeNodeName` are the program's loops; `LabelOf` and
    `ObjectName` say what they compute; the lemmas say what those values are: valid RFC 1123
    subdomains, and exactly the ones without two dashes in a row. */
module Sanitizer {

  /* ------------------------------- Characters ------------------------------- */

  predicate IsAlnum(c: char) {
    'a' <= c <= 'z' || '0' <= c <= '9'
  }

  // Rune-wise lower case. The Kelvin sign and the dotted capital I are the two runes outside
  // ASCII whose lower case is an ASCII letter. Every other rune's lower case stays outside
  // [a-z0-9.], so leaving it alone gives the same object name.
  function Lower(c: char): char {
    if 'A' <= c <= 'Z' then (c as int + 32) as char
    else if c == '\U{212A}' then 'k'
    else if c == '\U{0130}' then 'i'
    else c
  }

  function ToLower(s: string): string {
    seq(|s|, i requires 0 <= i < |s| => Lower(s[i]))
  }

  /* --------------------------- Library operations --------------------------- */

  function Split(s: string): (labels: seq<string>)
    ensures |labels| > 0
  {
    if s == "" then [""]
    else
      var rest := Split(s[1..]);
      if s[0] == '.' then [""] + rest else [[s[0]] + rest[0]] + rest[1..]
  }

  function Join(labels: seq<string>): string {
    if |labels| == 0 then ""
    else if |labels| == 1 then labels[0]
    else labels[0] + "." + Join(labels[1..])
  }

  function TrimLeft(s: string, cutset: set<char>): string {
    if |s| > 0 && s[0] in cutset then TrimLeft(s[1..], cutset) else s
  }

  function TrimRight(s: string, cutset: set<char>): (r: string)
    ensures |r| <= |s|
  {
    if |s| > 0 && s[|s| - 1] in cutset then TrimRight(s[..|s| - 1], cutset) else s
  }

  function Trim(s: string, cutset: set<char>): string {
    TrimLeft(TrimRight(s, cutset), cutset)
  }

  // One left-to-right, non-overlapping replacement of "--" by "-".
  function ReplaceDashes(s: string): string {
    if |s| < 2 then s
    else if s[0] == '-' && s[1] == '-' then "-" + ReplaceDashes(s[2..])
    else [s[0]] + ReplaceDashes(s[1..])
  }

  predicate HasDoubleDash(s: string) {
    exists i :: 0 <= i < |s| - 1 && s[i] == '-' && s[i + 1] == '-'
  }

  /* ------------------------------ Specification ------------------------------ */

  function Dashed(c: char): char {
    if IsAlnum(c) then c else '-'
  }

  function DashIllegal(s: string): string {
    seq(|s|, i requires 0 <= i < |s| => Dashed(s[i]))
  }

  // Every maximal run of dashes becomes one dash, in one pass.
  function Collapse(s: string): string {
    if |s| < 2 then s
    else if s[0] == '-' && s[1] == '-' then Collapse(s[1..])
    else [s[0]] + Collapse(s[1..])
  }

  function CapLabel(s: string): string {
    if |s| > 63 then Trim(s[..63], {'-'}) else s
  }

  function LabelOf(raw: string): string {
    CapLabel(Trim(Collapse(DashIllegal(raw)), {'-'}))
  }

  function LabelsOf(raws: seq<string>): seq<string> {
    if raws == [] then []
    else (if LabelOf(raws[0]) == "" then [] else [LabelOf(raws[0])]) + LabelsOf(raws[1..])
  }

  const SEPARATORS: set<char> := {'-', '.'}

  // The whole name after joining: capped and never empty.
  function CapName(joined: string): string {
    var out := if |joined| > 253 then Trim(joined[..253], SEPARATORS) else joined;
    if out == "" then "node" else out
  }

  function ObjectName(name: string): string {
    CapName(Join(LabelsOf(Split(ToLower(name)))))
  }

  // Section 2.1 of RFC 1123 with the sizes of section 2.3.4 of RFC 1035.
  predicate ValidLabel(s: string) {
    && 1 <= |s| <= 63
    && IsAlnum(s[0]) && IsAlnum(s[|s| - 1])
    && forall i :: 0 <= i < |s| ==> IsAlnum(s[i]) || s[i] == '-'
  }

  predicate ValidSubdomain(s: string) {
    1 <= |s| <= 253 && forall l :: l in Split(s) ==> ValidLabel(l)
  }

  /* -------------------------------- The loops -------------------------------- */

  method SanitizeLabel(raw: string) returns (out: string)
    ensures out == LabelOf(raw)
  {
    out := "";
    for i := 0 to |raw|
      invariant out == DashIllegal(raw)[..i]
    {
      if IsAlnum(raw[i]) {
        out := out + [raw[i]];
      } else {
        out := out + "-";
      }
    }
    assert out == DashIllegal(raw);
    while HasDoubleDash(out)
      invariant Collapse(out) == Collapse(DashIllegal(raw))
      decreases |out|
    {
      ReplaceShrinks(out);
      CollapseReplace(out);
      out := ReplaceDashes(out);
    }
    CollapseFixed(out);
    out := Trim(out, {'-'});
    if |out| > 63 {
      out := Trim(out[..63], {'-'});
    }
  }

  method SanitizeNodeName(name: string) returns (out: string)
    ensures out == ObjectName(name)
  {
    var labels: seq<string> := [];
    var raws := Split(ToLower(name));
    for i := 0 to |raws|
      invariant labels == LabelsOf(raws[..i])
    {
      var l := SanitizeLabel(raws[i]);
      LabelsOfSnoc(raws[..i], raws[i]);
      assert raws[..i] + [raws[i]] == raws[..i + 1];
      if l != "" {
        labels := labels + [l];
      }
    }
    assert raws[..|raws|] == raws;
    out := Join(labels);
    if |out| > 253 {
      out := Trim(out[..253], SEPARATORS);
    }
    if out == "" {
      out := "node";
    }
  }

  lemma LabelsOfSnoc(raws: seq<string>, last: string)
    ensures LabelsOf(raws + [last]) == LabelsOf(raws) + LabelsOf([last])
  {
    if raws == [] {
      assert raws + [last] == [last];
    } else {
      assert (raws + [last])[1..] == raws[1..] + [last];
      LabelsOfSnoc(raws[1..], last);
    }
  }

  /* ---------------------------- The collapse loop ---------------------------- */

  lemma DoubleDashTail(s: string)
    requires |s| >= 2
    ensures HasDoubleDash(s) <==> (s[0] == '-' && s[1] == '-') || HasDoubleDash(s[1..])
  {
    if HasDoubleDash(s) && !(s[0] == '-' && s[1] == '-') {
      var i :| 0 <= i < |s| - 1 && s[i] == '-' && s[i + 1] == '-';
      assert s[1..][i - 1] == '-' && s[1..][i] == '-';
    }
    if HasDoubleDash(s[1..]) {
      var i :| 0 <= i < |s[1..]| - 1 && s[1..][i] == '-' && s[1..][i + 1] == '-';
      assert s[i + 1] == '-' && s[i + 2] == '-';
    }
  }

  /** One round of the loop makes progress exactly when there is something left to do. */
  lemma {:induction false} ReplaceShrinks(s: string)
    ensures |ReplaceDashes(s)| <= |s|
    ensures HasDoubleDash(s) <==> |ReplaceDashes(s)| < |s|
    ensures !HasDoubleDash(s) ==> ReplaceDashes(s) == s
  {
    if |s| >= 2 {
      DoubleDashTail(s);
      if s[0] == '-' && s[1] == '-' {
        ReplaceShrinks(s[2..]);
      } else {
        ReplaceShrinks(s[1..]);
        assert s == [s[0]] + s[1..];
      }
    }
  }

  lemma {:induction false} CollapseFixed(s: string)
    requires !HasDoubleDash(s)
    ensures Collapse(s) == s
  {
    if |s| >= 2 {
      DoubleDashTail(s);
      CollapseFixed(s[1..]);
      assert s == [s[0]] + s[1..];
    }
  }

  // Prepending a dash matters only if the rest does not already start with one.
  lemma CollapseDash(s: string)
    ensures Collapse("-" + s) == if |s| > 0 && s[0] == '-' then Collapse(s) else "-" + Collapse(s)
  {
    assert ("-" + s)[1..] == s;
  }

  lemma CollapseHead(s: string)
    requires |s| > 0
    ensures |Collapse(s)| > 0 && Collapse(s)[0] == s[0]
  {
    if |s| >= 2 && s[0] == '-' && s[1] == '-' { CollapseHead(s[1..]); }
  }

  /** The loop's repeated replacement computes the one-pass collapse: a round keeps it. */
  lemma {:induction false} CollapseReplace(s: string)
    ensures Collapse(ReplaceDashes(s)) == Collapse(s)
    ensures |s| > 0 ==> |ReplaceDashes(s)| > 0 && ReplaceDashes(s)[0] == s[0]
  {
    if |s| < 2 {
    } else if s[0] == '-' && s[1] == '-' {
      var t := ReplaceDashes(s[2..]);
      CollapseReplace(s[2..]);
      CollapseDash(t);
      CollapseDash(s[2..]);
      assert s[1..] == "-" + s[2..];
      assert ReplaceDashes(s) == "-" + t;
      if |s| > 2 { assert s[2..][0] == s[2]; }
    } else {
      CollapseReplace(s[1..]);
      var t := ReplaceDashes(s[1..]);
      assert t[0] == s[1];
      assert ([s[0]] + t)[1..] == t;
    }
  }

  function Dashes(n: nat): string {
    seq(n, _ => '-')
  }

  /** A run of n dashes becomes ceil(n / 2) dashes in one round. */
  lemma {:induction false} ReplaceRun(n: nat, rest: string)
    requires rest == "" || rest[0] != '-'
    ensures ReplaceDashes(Dashes(n) + rest) == Dashes((n + 1) / 2) + ReplaceDashes(rest)
  {
    var s := Dashes(n) + rest;
    if n == 0 {
      assert s == rest;
      assert Dashes(0) + ReplaceDashes(rest) == ReplaceDashes(rest);
    } else if n == 1 {
      assert s == "-" + rest && s[1..] == rest;
      assert Dashes(1) == "-";
    } else {
      assert s[0] == '-' && s[1] == '-' && s[2..] == Dashes(n - 2) + rest;
      ReplaceRun(n - 2, rest);
      assert Dashes((n + 1) / 2) == "-" + Dashes((n - 1) / 2);
    }
  }

  lemma {:induction false} CollapseNoDoubleDash(s: string)
    ensures !HasDoubleDash(Collapse(s))
  {
    if |s| >= 2 {
      CollapseNoDoubleDash(s[1..]);
      if !(s[0] == '-' && s[1] == '-') {
        CollapseHead(s[1..]);
        var c := Collapse(s);
        assert c[1..] == Collapse(s[1..]);
        if |c| >= 2 { DoubleDashTail(c); }
      }
    }
  }

  /* ------------------------------ Label validity ------------------------------ */

  predicate LabelChars(s: string) {
    forall i :: 0 <= i < |s| ==> IsAlnum(s[i]) || s[i] == '-'
  }

  lemma CollapseChars(s: string)
    requires LabelChars(s)
    ensures LabelChars(Collapse(s))
  {
    if |s| >= 2 { CollapseChars(s[1..]); }
  }

  // A non-empty label body: legal characters, alphanumeric ends, no double dash; any length.
  predicate Body(s: string) {
    |s| > 0 && IsAlnum(s[0]) && IsAlnum(s[|s| - 1]) && LabelChars(s) && !HasDoubleDash(s)
  }

  lemma Slice(s: string, lo: nat, hi: nat)
    requires lo <= hi <= |s|
    ensures !HasDoubleDash(s) ==> !HasDoubleDash(s[lo..hi])
    ensures LabelChars(s) ==> LabelChars(s[lo..hi])
  {
    if HasDoubleDash(s[lo..hi]) {
      var i :| 0 <= i < hi - lo - 1 && s[lo..hi][i] == '-' && s[lo..hi][i + 1] == '-';
      assert s[lo + i] == '-' && s[lo + i + 1] == '-';
    }
  }

  /** Trimming dashes off a clean string removes at most one at each end, so a body remains. */
  lemma TrimClean(s: string)
    requires LabelChars(s) && !HasDoubleDash(s)
    ensures Trim(s, {'-'}) == "" || Body(Trim(s, {'-'}))
    ensures |s| > 1 ==> |Trim(s, {'-'})| > 0
    ensures |Trim(s, {'-'})| <= |s|
  {
    var r := TrimRight(s, {'-'});
    if |s| > 0 && s[|s| - 1] == '-' {
      var t := s[..|s| - 1];
      if |t| > 0 { assert s[|s| - 2] != '-'; }
      assert r == TrimRight(t, {'-'}) == t;
    } else {
      assert r == s;
    }
    assert r == s[0..|r|];
    Slice(s, 0, |r|);
    if |r| > 0 && r[0] == '-' {
      if |r| > 1 { assert !(r[0] == '-' && r[1] == '-'); }
      assert TrimLeft(r, {'-'}) == r[1..|r|];
      Slice(r, 1, |r|);
    }
  }

  lemma TrimBody(s: string, cutset: set<char>)
    requires |s| > 0 && s[0] !in cutset && s[|s| - 1] !in cutset
    ensures Trim(s, cutset) == s
  {
  }

  lemma LabelValid(raw: string)
    ensures LabelOf(raw) == "" || (Body(LabelOf(raw)) && |LabelOf(raw)| <= 63)
  {
    var d := DashIllegal(raw);
    CollapseChars(d);
    CollapseNoDoubleDash(d);
    TrimClean(Collapse(d));
    var t := Trim(Collapse(d), {'-'});
    if |t| > 63 {
      Slice(t, 0, 63);
      assert t[0..63] == t[..63];
      TrimClean(t[..63]);
    }
  }

  lemma LabelFixed(l: string)
    requires Body(l) && |l| <= 63
    ensures LabelOf(l) == l
  {
    assert DashIllegal(l) == l;
    CollapseFixed(l);
    TrimBody(l, {'-'});
  }

  /* ------------------------------ Split and Join ------------------------------ */

  predicate Bodies(labels: seq<string>) {
    labels == [] || (Body(labels[0]) && |labels[0]| <= 63 && Bodies(labels[1..]))
  }

  lemma {:induction false} BodiesAll(labels: seq<string>)
    ensures Bodies(labels) <==> forall i :: 0 <= i < |labels| ==> Body(labels[i]) && |labels[i]| <= 63
  {
    if labels != [] {
      BodiesAll(labels[1..]);
      assert forall i :: 0 < i < |labels| ==> labels[i] == labels[1..][i - 1];
    }
  }

  lemma LabelsOfBodies(raws: seq<string>)
    ensures Bodies(LabelsOf(raws))
  {
    if raws != [] {
      LabelValid(raws[0]);
      LabelsOfBodies(raws[1..]);
      if LabelOf(raws[0]) == "" {
        assert LabelsOf(raws) == LabelsOf(raws[1..]);
      } else {
        assert LabelsOf(raws)[1..] == LabelsOf(raws[1..]);
      }
    }
  }

  lemma LabelsOfFixed(labels: seq<string>)
    requires Bodies(labels)
    ensures LabelsOf(labels) == labels
  {
    if labels != [] {
      LabelFixed(labels[0]);
      LabelsOfFixed(labels[1..]);
      assert labels == [labels[0]] + labels[1..];
    }
  }

  lemma {:induction false} JoinSplit(s: string)
    ensures Join(Split(s)) == s
  {
    if s != "" {
      JoinSplit(s[1..]);
      var rest := Split(s[1..]);
      var all := Split(s);
      if s[0] == '.' {
        assert all[1..] == rest;
      } else if |rest| > 1 {
        assert all[1..] == rest[1..];
      }
      assert s == [s[0]] + s[1..];
    }
  }

  lemma {:induction false} SplitCons(l: string, s: string)
    requires '.' !in l
    ensures Split(l + "." + s) == [l] + Split(s)
  {
    var t := l + "." + s;
    if l == "" {
      assert t[0] == '.' && t[1..] == s;
    } else {
      assert t[1..] == l[1..] + "." + s;
      SplitCons(l[1..], s);
      assert l == [l[0]] + l[1..];
    }
  }

  lemma {:induction false} SplitPlain(l: string)
    requires '.' !in l
    ensures Split(l) == [l]
  {
    if l != "" {
      SplitPlain(l[1..]);
      assert l == [l[0]] + l[1..];
    }
  }

  lemma BodyNoDot(l: string)
    requires Body(l)
    ensures '.' !in l
  {
  }

  /** Splitting at dots undoes joining with dots. */
  lemma {:induction false} SplitJoin(labels: seq<string>)
    requires |labels| > 0 && Bodies(labels)
    ensures Split(Join(labels)) == labels
  {
    BodyNoDot(labels[0]);
    if |labels| == 1 {
      SplitPlain(labels[0]);
    } else {
      SplitJoin(labels[1..]);
      SplitCons(labels[0], Join(labels[1..]));
    }
  }

  lemma ConcatNoDoubleDash(a: string, b: string)
    requires !HasDoubleDash(a) && !HasDoubleDash(b)
    ensures !HasDoubleDash(a + "." + b)
  {
    var t := a + "." + b;
    forall i | 0 <= i < |t| - 1 ensures !(t[i] == '-' && t[i + 1] == '-') {
      if i + 1 < |a| {
        assert t[i] == a[i] && t[i + 1] == a[i + 1];
      } else if i > |a| {
        assert t[i] == b[i - |a| - 1] && t[i + 1] == b[i - |a|];
      }
    }
  }

  lemma {:induction false} JoinBodies(labels: seq<string>)
    requires |labels| > 0 && Bodies(labels)
    ensures var s := Join(labels);
            |s| > 0 && IsAlnum(s[0]) && IsAlnum(s[|s| - 1]) && !HasDoubleDash(s)
  {
    if |labels| > 1 {
      JoinBodies(labels[1..]);
      ConcatNoDoubleDash(labels[0], Join(labels[1..]));
    }
  }

  lemma {:induction false} SplitNoDoubleDash(s: string)
    requires !HasDoubleDash(s)
    ensures forall l :: l in Split(s) ==> !HasDoubleDash(l)
    ensures s == "" || s[0] == '.' ==> Split(s)[0] == ""
    ensures |s| > 0 && s[0] != '.' ==> |Split(s)[0]| > 0 && Split(s)[0][0] == s[0]
  {
    if s != "" {
      assert s[1..] == s[1..|s|];
      Slice(s, 1, |s|);
      SplitNoDoubleDash(s[1..]);
      var rest := Split(s[1..]);
      if s[0] != '.' {
        var h := [s[0]] + rest[0];
        if |h| >= 2 {
          if |s| >= 2 { assert !(s[0] == '-' && s[1] == '-'); }
          assert h[1..] == rest[0];
          DoubleDashTail(h);
        }
      }
    }
  }

  /* ------------------------------ The length cap ------------------------------ */

  lemma CutBody(l: string, n: nat) returns (p: string)
    requires Body(l) && |l| <= 63 && 0 < n <= |l|
    ensures Body(p) && |p| <= 63 && |p| <= n
    ensures TrimRight(l[..n], SEPARATORS) == p
  {
    assert l[..n] == l[0..n] && l[..n - 1] == l[0..n - 1];
    Slice(l, 0, n);
    Slice(l, 0, n - 1);
    if l[n - 1] == '-' {
      assert l[n - 2] != '-';
      p := l[..n - 1];
      assert l[..n][..n - 1] == p;
    } else {
      p := l[..n];
    }
  }

  lemma JoinCons(l: string, k: seq<string>)
    requires |k| > 0
    ensures Join([l] + k) == l + "." + Join(k)
  {
    assert ([l] + k)[1..] == k;
  }

  lemma CutAtDot(l: string, rest: string)
    requires Body(l)
    ensures TrimRight((l + "." + rest)[..|l| + 1], SEPARATORS) == l
  {
    var t := l + ".";
    assert (l + "." + rest)[..|l| + 1] == t;
    assert t[..|t| - 1] == l;
    assert TrimRight(l, SEPARATORS) == l;
  }

  lemma CutRest(l: string, rest: string, m: nat, k: seq<string>)
    requires Body(l) && |l| <= 63 && Bodies(k) && |k| > 0 && m <= |rest|
    requires TrimRight(rest[..m], SEPARATORS) == Join(k)
    ensures Bodies([l] + k)
    ensures TrimRight((l + "." + rest)[..|l| + 1 + m], SEPARATORS) == Join([l] + k)
  {
    JoinBodies(k);
    JoinCons(l, k);
    assert ([l] + k)[1..] == k;
    CutTail(l, rest, m);
  }

  /** A prefix of joined labels, with the separators the cut exposes trimmed off, is again a
      join of label bodies. */
  lemma {:induction false} CutJoin(labels: seq<string>, n: nat) returns (kept: seq<string>)
    requires |labels| > 0 && Bodies(labels)
    requires 0 < n <= |Join(labels)|
    ensures |kept| > 0 && Bodies(kept)
    ensures TrimRight(Join(labels)[..n], SEPARATORS) == Join(kept)
  {
    var l, tail := labels[0], labels[1..];
    ghost var cut := Join(labels)[..n];
    if n <= |l| {
      assert cut == l[..n];
      var p := CutBody(l, n);
      kept := [p];
      assert TrimRight(cut, SEPARATORS) == p;
    } else if n == |l| + 1 {
      kept := [l];
      assert cut == (l + "." + Join(tail))[..|l| + 1];
      CutAtDot(l, Join(tail));
      assert TrimRight(cut, SEPARATORS) == l;
    } else {
      var k := CutJoin(tail, n - |l| - 1);
      kept := [l] + k;
      assert cut == (l + "." + Join(tail))[..n];
      CutRest(l, Join(tail), n - |l| - 1, k);
      assert TrimRight(cut, SEPARATORS) == Join(kept);
    }
  }

  lemma CutTail(l: string, rest: string, m: nat)
    requires m <= |rest| && TrimRight(rest[..m], SEPARATORS) != ""
    ensures TrimRight((l + "." + rest)[..|l| + 1 + m], SEPARATORS)
         == l + "." + TrimRight(rest[..m], SEPARATORS)
  {
    assert (l + "." + rest)[..|l| + 1 + m] == (l + ".") + rest[..m];
    TrimRightAppend(l + ".", rest[..m], SEPARATORS);
  }

  lemma {:induction false} TrimRightAppend(a: string, b: string, cutset: set<char>)
    requires TrimRight(b, cutset) != ""
    ensures TrimRight(a + b, cutset) == a + TrimRight(b, cutset)
    decreases |b|
  {
    if b[|b| - 1] in cutset {
      assert (a + b)[..|a + b| - 1] == a + b[..|b| - 1];
      TrimRightAppend(a, b[..|b| - 1], cutset);
    }
  }

  /* ---------------------------------- Theorems ---------------------------------- */

  lemma Canonical(labels: seq<string>)
    requires |labels| > 0 && Bodies(labels) && |Join(labels)| <= 253
    ensures ValidSubdomain(Join(labels)) && !HasDoubleDash(Join(labels))
  {
    SplitJoin(labels);
    JoinBodies(labels);
    BodiesAll(labels);
  }

  lemma CapNameValid(labels: seq<string>)
    requires Bodies(labels) && labels != []
    ensures ValidSubdomain(CapName(Join(labels))) && !HasDoubleDash(CapName(Join(labels)))
  {
    JoinBodies(labels);
    if |Join(labels)| <= 253 {
      Canonical(labels);
    } else {
      var kept := CutJoin(labels, 253);
      JoinBodies(kept);
      assert CapName(Join(labels)) == Join(kept);
      Canonical(kept);
    }
  }

  /** Every object name is a valid subdomain, and carries no double dash. */
  lemma ObjectNameValid(name: string)
    ensures ValidSubdomain(ObjectName(name)) && !HasDoubleDash(ObjectName(name))
  {
    var raws := Split(ToLower(name));
    LabelsOfBodies(raws);
    if LabelsOf(raws) == [] {
      Canonical(["node"]);
    } else {
      CapNameValid(LabelsOf(raws));
    }
  }

  /** Valid subdomains without a double dash are left alone. */
  lemma ObjectNameFixed(s: string)
    requires ValidSubdomain(s) && !HasDoubleDash(s)
    ensures ObjectName(s) == s
  {
    var labels := Split(s);
    SplitNoDoubleDash(s);
    JoinSplit(s);
    SplitChars(s);
    assert ToLower(s) == s;
    forall i | 0 <= i < |labels| ensures Body(labels[i]) && |labels[i]| <= 63 {
      assert labels[i] in labels;
    }
    BodiesAll(labels);
    LabelsOfFixed(labels);
  }

  lemma {:induction false} SplitChars(s: string)
    requires forall l :: l in Split(s) ==> LabelChars(l)
    ensures forall i :: 0 <= i < |s| ==> IsAlnum(s[i]) || s[i] == '-' || s[i] == '.'
  {
    if s != "" {
      var rest := Split(s[1..]);
      var all := Split(s);
      forall l | l in rest ensures LabelChars(l) {
        if s[0] != '.' {
          assert all[0] == [s[0]] + rest[0] && LabelChars(all[0]);
          if l == rest[0] {
            assert all[0][1..|all[0]|] == l;
            Slice(all[0], 1, |all[0]|);
          } else {
            assert l in all;
          }
        } else {
          assert l in all;
        }
      }
      SplitChars(s[1..]);
      if s[0] != '.' {
        assert LabelChars(all[0]) && all[0][0] == s[0];
      }
      forall i | 0 <= i < |s| ensures IsAlnum(s[i]) || s[i] == '-' || s[i] == '.' {
        if i > 0 { assert s[i] == s[1..][i - 1]; }
      }
    }
  }

  lemma ObjectNameIdempotent(name: string)
    ensures ObjectName(ObjectName(name)) == ObjectName(name)
  {
    ObjectNameValid(name);
    ObjectNameFixed(ObjectName(name));
  }

  /** The image of the sanitizer is its set of fixed points, and both are exactly the valid
      subdomains that contain no double dash. */
  lemma ObjectNameImage(s: string)
    ensures ObjectName(s) == s <==> ValidSubdomain(s) && !HasDoubleDash(s)
    ensures (exists name :: ObjectName(name) == s) <==> ObjectName(s) == s
  {
    ObjectNameValid(s);
    if ValidSubdomain(s) && !HasDoubleDash(s) {
      ObjectNameFixed(s);
    }
    if exists name :: ObjectName(name) == s {
      var name :| ObjectName(name) == s;
      ObjectNameIdempotent(name);
    }
  }
}
