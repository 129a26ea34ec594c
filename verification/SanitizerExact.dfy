/** What the sanitizer makes of every name, in terms of the characters of the name itself. */
module SanitizerExact {
  import opened Api
  import opened Sanitizer

  // The letter or digit a character stands for, if any: itself, or its lower case. The Kelvin sign
  // and the dotted capital I are the two characters outside ASCII that stand for one.
  function LetterOf(c: char): Option<char> {
    if 'a' <= c <= 'z' || '0' <= c <= '9' then Some(c)
    else if 'A' <= c <= 'Z' then Some(((c - 'A') as int + 'a' as int) as char)
    else if c == '\U{212A}' then Some('k')
    else if c == '\U{0130}' then Some('i')
    else None
  }

  // The letters of a text in order, with one dash between two of them exactly when something that
  // is not a letter stands between them.
  function Spell(raw: string): string {
    if raw == "" then ""
    else
      var n := |raw| - 1;
      var front := Spell(raw[..n]);
      match LetterOf(raw[n])
      case None => front
      case Some(l) =>
        if front == "" then [l]
        else if LetterOf(raw[n - 1]) == None then front + "-" + [l]
        else front + [l]
  }

  // Letters only.
  function Letters(s: string): string {
    if s == "" then ""
    else Letters(s[..|s| - 1]) + match LetterOf(s[|s| - 1]) case Some(l) => [l] case None => ""
  }

  // At most n characters, without a dash at the end.
  function Shorten(s: string, n: nat): string {
    if |s| <= n then s
    else if n > 0 && s[n - 1] == '-' then s[..n - 1]
    else s[..n]
  }

  /* --------------------------------- One label --------------------------------- */

  lemma LowerLetter(c: char)
    ensures Dashed(Lower(c)) == match LetterOf(c) case Some(l) => l case None => '-'
    ensures Lower(c) == '.' <==> c == '.'
  {
  }

  lemma {:induction false} CollapseSnoc(s: string, c: char)
    ensures Collapse(s + [c]) == if c == '-' && s != "" && s[|s| - 1] == '-' then Collapse(s) else Collapse(s) + [c]
  {
    if |s| <= 1 {
      assert s != "" ==> s == [s[0]];
      assert (s + [c])[1..] == if s == "" then "" else [c];
    } else {
      CollapseSnoc(s[1..], c);
      assert (s + [c])[1..] == s[1..] + [c];
    }
  }

  lemma {:induction false} CollapseLast(s: string)
    requires s != ""
    ensures Collapse(s) != "" && Collapse(s)[|Collapse(s)| - 1] == s[|s| - 1]
  {
    if |s| > 1 {
      CollapseLast(s[1..]);
    }
  }

  lemma NoPair(x: string, i: nat)
    requires !HasDoubleDash(x) && i + 1 < |x|
    ensures x[i] == '-' ==> x[i + 1] != '-'
  {
  }

  // Trimming the dashes of a text without double dashes.
  lemma TrimForm(x: string)
    requires !HasDoubleDash(x)
    ensures Trim(x, {'-'}) ==
            if x == "" || x == "-" then ""
            else x[if x[0] == '-' then 1 else 0 .. if x[|x| - 1] == '-' then |x| - 1 else |x|]
  {
    if x != "" && x != "-" {
      var r := TrimRight(x, {'-'});
      if x[|x| - 1] == '-' {
        var y := x[..|x| - 1];
        NoPair(x, |x| - 2);
        assert TrimRight(y, {'-'}) == y;
      }
      if r[0] == '-' {
        NoPair(x, 0);
        assert TrimLeft(r[1..], {'-'}) == r[1..];
      }
    }
  }

  lemma {:induction false} Spelling(raw: string)
    ensures Trim(Collapse(DashIllegal(ToLower(raw))), {'-'}) == Spell(raw)
  {
    if raw != "" {
      var n := |raw| - 1;
      var front := DashIllegal(ToLower(raw[..n]));
      Spelling(raw[..n]);
      SpellSnoc(raw);
      SpellingStep(raw, front);
    }
  }

  lemma SpellingStep(raw: string, front: string)
    requires raw != "" && front == DashIllegal(ToLower(raw[..|raw| - 1]))
    requires Trim(Collapse(front), {'-'}) == Spell(raw[..|raw| - 1])
    ensures Trim(Collapse(DashIllegal(ToLower(raw))), {'-'}) == Spell(raw)
  {
    var n := |raw| - 1;
    var d := DashIllegal(ToLower(raw));
    DashedSnoc(raw);
    DashedAt(raw, n);
    SpellSnoc(raw);
    if n > 0 {
      DashedAt(raw, n - 1);
      assert front[n - 1] == d[n - 1];
    }
    hide Spell, Collapse, Trim, LetterOf, DashIllegal, ToLower;
    if n > 0 {
      CollapseLast(front);
    }
    CollapseSnoc(front, d[n]);
    CollapseNoDoubleDash(front);
    CollapseNoDoubleDash(d);
    SpellStep(Collapse(front), d[n]);
  }

  lemma DashedSnoc(raw: string)
    requires raw != ""
    ensures var d := DashIllegal(ToLower(raw));
            |d| == |raw| && d == DashIllegal(ToLower(raw[..|raw| - 1])) + [d[|raw| - 1]]
  {
  }

  // One character of a label, once lower-cased and cleared of what is illegal.
  lemma DashedAt(raw: string, i: nat)
    requires i < |raw|
    ensures DashIllegal(ToLower(raw))[i] == match LetterOf(raw[i]) case Some(l) => l case None => '-'
    ensures LetterOf(raw[i]).Some? ==> LetterOf(raw[i]).value != '-'
  {
    LowerLetter(raw[i]);
  }

  // One more character after a text without double dashes.
  lemma SpellStep(x: string, c: char)
    requires !HasDoubleDash(x)
    ensures c != '-' && !HasDoubleDash(x + [c]) ==>
              var t := Trim(x, {'-'});
              Trim(x + [c], {'-'}) == if t == "" then [c] else if x[|x| - 1] == '-' then t + "-" + [c] else t + [c]
    ensures c == '-' && !HasDoubleDash(x + [c]) ==> Trim(x + [c], {'-'}) == Trim(x, {'-'})
  {
    TrimForm(x);
    if !HasDoubleDash(x + [c]) {
      TrimForm(x + [c]);
    }
  }

  // What a letter adds to a spelled text.
  lemma LetterAdds(w: string, l: char)
    requires LetterOf(l) == Some(l)
    ensures Letters([l]) == [l] && Letters(w + [l]) == Letters(w) + [l] && Letters(w + "-" + [l]) == Letters(w) + [l]
  {
    LettersSnoc("", l);
    assert "" + [l] == [l];
    LettersSnoc(w, l);
    LettersSnoc(w + "-", l);
    LettersSnoc(w, '-');
    assert LetterOf('-') == None;
  }

  lemma SpellSnoc(raw: string)
    requires raw != ""
    ensures var n := |raw| - 1;
            var front := Spell(raw[..n]);
            Spell(raw) == match LetterOf(raw[n])
                          case None => front
                          case Some(l) =>
                            if front == "" then [l]
                            else if LetterOf(raw[n - 1]) == None then front + "-" + [l]
                            else front + [l]
  {
  }

  lemma {:induction false} SpellShape(raw: string)
    ensures Spell(raw) != "" ==> LetterOf(Spell(raw)[0]) == Some(Spell(raw)[0])
    ensures Letters(Spell(raw)) == Letters(raw)
    ensures Spell(raw) == "" <==> Letters(raw) == ""
  {
    if raw != "" {
      var front, last := raw[..|raw| - 1], raw[|raw| - 1];
      SpellShape(front);
      SpellSnoc(raw);
      assert Letters(raw) == Letters(front) + match LetterOf(last) case Some(l) => [l] case None => "";
      hide Spell, Letters;
      if LetterOf(last).Some? {
        var l := LetterOf(last).value;
        LetterOfLetter(last);
        hide LetterOf;
        LetterAdds(Spell(front), l);
      }
    }
  }

  lemma LetterOfLetter(c: char)
    requires LetterOf(c).Some?
    ensures LetterOf(LetterOf(c).value) == LetterOf(c) && LetterOf(c).value != '-'
  {
  }

  lemma LettersSnoc(s: string, c: char)
    ensures Letters(s + [c]) == Letters(s) + match LetterOf(c) case Some(l) => [l] case None => ""
  {
    assert (s + [c])[..|s|] == s;
  }

  /** Every label, exactly: its letters in order, one dash where anything else stood between two of
      them, cut at 63 characters. */
  lemma {:induction false} LabelExact(raw: string)
    ensures LabelOf(ToLower(raw)) == Shorten(Spell(raw), 63)
    ensures Letters(Spell(raw)) == Letters(raw)
  {
    Spelling(raw);
    SpellShape(raw);
    var w := Spell(raw);
    var d := Collapse(DashIllegal(ToLower(raw)));
    CollapseNoDoubleDash(DashIllegal(ToLower(raw)));
    if |w| > 63 {
      TrimForm(d);
      var lo := if d[0] == '-' then 1 else 0;
      Slice(d, lo, lo + |w|);
      assert d[lo..lo + |w|] == w;
      Slice(w, 0, 63);
      assert w[0..63] == w[..63] && w[0] != '-';
      TrimForm(w[..63]);
    }
  }

  /* --------------------------------- The whole name --------------------------------- */

  // The labels between the dots that have letters.
  function Spelled(raws: seq<string>): seq<string> {
    if raws == [] then []
    else (if Spell(raws[0]) == "" then [] else [Shorten(Spell(raws[0]), 63)]) + Spelled(raws[1..])
  }

  function LowerAll(raws: seq<string>): seq<string> {
    if raws == [] then [] else [ToLower(raws[0])] + LowerAll(raws[1..])
  }

  lemma {:induction false} SplitLower(s: string)
    ensures Split(ToLower(s)) == LowerAll(Split(s))
  {
    if s != "" {
      LowerLetter(s[0]);
      SplitLower(s[1..]);
      assert ToLower(s)[1..] == ToLower(s[1..]);
      var rest := Split(s[1..]);
      if s[0] != '.' {
        assert ToLower([s[0]] + rest[0]) == [Lower(s[0])] + ToLower(rest[0]);
        assert LowerAll(rest)[1..] == LowerAll(rest[1..]);
        assert ([[s[0]] + rest[0]] + rest[1..])[1..] == rest[1..];
      } else {
        assert ([""] + rest)[1..] == rest && ToLower("") == "";
      }
    } else {
      assert ToLower("") == "" && LowerAll([""]) == [""];
    }
  }

  lemma {:induction false} SpelledLabels(raws: seq<string>)
    ensures LabelsOf(LowerAll(raws)) == Spelled(raws)
  {
    if raws != [] {
      LabelExact(raws[0]);
      SpellShape(raws[0]);
      SpelledLabels(raws[1..]);
      assert LowerAll(raws)[1..] == LowerAll(raws[1..]);
    }
  }

  // A text without letters: nothing but dots and characters that become dashes.
  predicate NoLetters(s: string) {
    forall i :: 0 <= i < |s| ==> LetterOf(s[i]) == None
  }

  lemma {:induction false} LettersNone(s: string)
    ensures Letters(s) == "" <==> NoLetters(s)
  {
    if s != "" {
      LettersNone(s[..|s| - 1]);
    }
  }

  predicate NoneHasLetters(raws: seq<string>) {
    raws == [] || (NoLetters(raws[0]) && NoneHasLetters(raws[1..]))
  }

  lemma {:induction false} SpelledNone(raws: seq<string>)
    ensures Spelled(raws) == [] <==> NoneHasLetters(raws)
  {
    if raws != [] {
      SpellShape(raws[0]);
      LettersNone(raws[0]);
      SpelledNone(raws[1..]);
    }
  }

  lemma {:induction false} SplitNoLetters(s: string)
    ensures NoLetters(s) <==> NoneHasLetters(Split(s))
  {
    if s != "" {
      SplitNoLetters(s[1..]);
      var rest, all := Split(s[1..]), Split(s);
      assert s == [s[0]] + s[1..];
      NoLettersCons(s[0], s[1..]);
      if s[0] == '.' {
        assert all[1..] == rest && NoLetters("");
      } else {
        NoLettersCons(s[0], rest[0]);
        assert all[1..] == rest[1..];
      }
    }
  }

  lemma NoLettersCons(c: char, s: string)
    ensures NoLetters([c] + s) <==> LetterOf(c) == None && NoLetters(s)
  {
    var t := [c] + s;
    assert forall i | 0 <= i < |s| :: s[i] == t[i + 1];
    assert t[0] == c;
    if NoLetters(t) {
      forall i | 0 <= i < |s|
        ensures LetterOf(s[i]) == None
      {
        assert LetterOf(t[i + 1]) == None;
      }
    }
  }

  /** The object name of every node name, exactly: the spelled labels joined by dots, cut at 253
      characters without separators at the end, and "node" exactly when there is no letter. */
  lemma {:induction false} NameExact(name: string)
    ensures var joined := Join(Spelled(Split(name)));
            ObjectName(name) == if NoLetters(name) then "node"
                                else if |joined| <= 253 then joined
                                else TrimRight(joined[..253], {'-', '.'})
  {
    SplitLower(name);
    SpelledLabels(Split(name));
    SpelledNone(Split(name));
    SplitNoLetters(name);
    var labels := Spelled(Split(name));
    LabelsOfBodies(Split(ToLower(name)));
    if labels != [] {
      JoinBodies(labels);
      var joined := Join(labels);
      if |joined| > 253 {
        var kept := CutJoin(labels, 253);
        JoinBodies(kept);
      }
    }
  }
}
