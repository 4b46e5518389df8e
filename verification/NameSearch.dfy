/** The case-insensitive pattern search that finds a dry-goods item by a product
    name: `%` stands for any text, `_` for one character, a backslash for the
    character after it. Case is folded for the letters a to z. */
module NameSearch {
  import opened Options

  function Fold(c: char): char {
    if 'A' <= c <= 'Z' then (c as int + 32) as char else c
  }

  predicate Like(s: string, p: string)
    decreases |s| + |p|
  {
    if p == "" then s == ""
    else if p[0] == '%' then Like(s, p[1..]) || (s != "" && Like(s[1..], p))
    else if s == "" then false
    else if p[0] == '_' then Like(s[1..], p[1..])
    else if p[0] == '\\' && |p| > 1 then Fold(s[0]) == Fold(p[1]) && Like(s[1..], p[2..])
    else Fold(s[0]) == Fold(p[0]) && Like(s[1..], p[1..])
  }

  function PatternOf(text: string): string { "%" + text + "%" }

  // ---------- What a search finds ----------

  predicate SameLetter(a: char, b: char) {
    a == b
    || ('A' <= a <= 'Z' && b as int - a as int == 'a' as int - 'A' as int)
    || ('A' <= b <= 'Z' && a as int - b as int == 'a' as int - 'A' as int)
  }

  lemma FoldsTogether(a: char, b: char)
    ensures Fold(a) == Fold(b) <==> SameLetter(a, b)
  {
  }

  /** The characters a text asks for, one by one; None where any will do. No answer for
      a text that asks for any number of characters or ends in a lone backslash. */
  function Asked(text: string): Option<seq<Option<char>>> {
    if text == "" then Some([])
    else if text[0] == '%' || text == "\\" then None
    else
      var width, first := if text[0] == '\\' then 2 else 1, if text[0] == '\\' then text[1] else text[0];
      var rest := Asked(text[width..]);
      if rest.None? then None else Some([if text[0] == '_' then None else Some(first)] + rest.value)
  }

  predicate Fits(s: string, asked: seq<Option<char>>) {
    |asked| <= |s| && forall j | 0 <= j < |asked| && asked[j].Some? :: SameLetter(s[j], asked[j].value)
  }

  predicate FoundAs(s: string, asked: seq<Option<char>>) {
    exists i :: 0 <= i <= |s| && Fits(s[i..], asked)
  }

  lemma {:induction false} AnyText(s: string)
    ensures Like(s, "%")
  {
    if s != "" {
      AnyText(s[1..]);
    } else {
      assert Like(s, "%"[1..]);
    }
  }

  lemma FitsNext(s: string, first: Option<char>, rest: seq<Option<char>>)
    ensures Fits(s, [first] + rest) <==>
              s != "" && (first.Some? ==> SameLetter(s[0], first.value)) && Fits(s[1..], rest)
  {
    var all := [first] + rest;
    assert all[0] == first && all[1..] == rest;
    if Fits(s, all) {
      assert forall j | 0 <= j < |rest| :: all[j + 1] == rest[j] && s[1..][j] == s[j + 1];
    }
    if s != "" && Fits(s[1..], rest) {
      assert forall j | 0 < j < |all| :: all[j] == rest[j - 1] && s[1..][j - 1] == s[j];
    }
  }

  lemma {:induction false} PrefixLike(s: string, text: string)
    requires Asked(text).Some?
    ensures Like(s, text + "%") <==> Fits(s, Asked(text).value)
    decreases |text|
  {
    if text == "" {
      assert text + "%" == "%";
      AnyText(s);
    } else {
      var p, width := text + "%", if text[0] == '\\' then 2 else 1;
      var rest := Asked(text[width..]).value;
      assert p[0] == text[0] && p[width..] == text[width..] + "%" && (width == 2 ==> p[1] == text[1]);
      FitsNext(s, Asked(text).value[0], rest);
      if s != "" {
        PrefixLike(s[1..], text[width..]);
        FoldsTogether(s[0], p[width - 1]);
      }
    }
  }

  /** The search finds exactly the names in which the characters asked for stand one
      after the other, whatever the case of either. */
  lemma {:induction false} PatternFinds(s: string, text: string)
    requires Asked(text).Some?
    ensures Like(s, PatternOf(text)) <==> FoundAs(s, Asked(text).value)
  {
    var p, asked := PatternOf(text), Asked(text).value;
    assert p[1..] == text + "%";
    PrefixLike(s, text);
    assert s[0..] == s;
    if s != "" {
      PatternFinds(s[1..], text);
      if i :| 0 <= i <= |s| && Fits(s[i..], asked) {
        assert 0 < i ==> s[1..][i - 1..] == s[i..];
      }
      if i :| 0 <= i <= |s[1..]| && Fits(s[1..][i..], asked) {
        assert s[1..][i..] == s[i + 1..];
      }
    }
  }

  /** A name without pattern characters. */
  predicate Plain(text: string) {
    '%' !in text && '_' !in text && '\\' !in text
  }

  predicate StartsWith(s: string, text: string) {
    |text| <= |s| && forall j | 0 <= j < |text| :: SameLetter(s[j], text[j])
  }

  predicate FoundIn(s: string, text: string) {
    exists i :: 0 <= i <= |s| && StartsWith(s[i..], text)
  }

  lemma {:induction false} PlainAsks(text: string)
    requires Plain(text)
    ensures Asked(text).Some? && |Asked(text).value| == |text|
    ensures forall j | 0 <= j < |text| :: Asked(text).value[j] == Some(text[j])
  {
    if text != "" {
      assert text[0] in text;
      PlainAsks(text[1..]);
    }
  }

  /** For a plain name the search finds exactly the texts that contain it, whatever
      the case of either. */
  lemma SearchFinds(s: string, text: string)
    requires Plain(text)
    ensures Like(s, PatternOf(text)) <==> FoundIn(s, text)
  {
    PlainAsks(text);
    PatternFinds(s, text);
    var asked := Asked(text).value;
    hide Asked, Like, Plain, SameLetter;
    forall i | 0 <= i <= |s| ensures Fits(s[i..], asked) <==> StartsWith(s[i..], text) {
    }
  }
}
