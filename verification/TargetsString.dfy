/**
 The targets string: what the form's normaliser (_targets_to_str in
 trade_terminal_app/frontend_signal_bridge.py) makes of it and what the strategy's parser
 (parse_message_to_signal in gtt_strategy.py) reads back.
 */
module TargetsString {

  /** What str.strip() and the regular expression \s take for white space. */
  predicate Space(c: char) {
    var n := c as int;
    || 9 <= n <= 13 || 28 <= n <= 32 || n == 133 || n == 160 || n == 5760 || 8192 <= n <= 8202
    || n == 8232 || n == 8233 || n == 8239 || n == 8287 || n == 12288
  }

  predicate Comma(c: char) { Space(c) || c == ',' }

  predicate Slash(c: char) { c == '/' }

  /** What separates two targets in the form. */
  predicate Separator(c: char) { Comma(c) || Slash(c) }

  lemma Kinds()
    ensures !Space('/') && !Space(',') && Separator('/')
    ensures forall c :: Space(c) ==> Comma(c)
    ensures forall c :: Comma(c) ==> Separator(c) && c != '/'
  {
  }

  /** Comma, slash, and the characters that Unicode calls white space together with the four separators of ASCII. */
  lemma SeparatorsAre(c: char)
    ensures Separator(c) <==>
      || c == ',' || c == '/'
      || c in {' ', '\t', '\n', '\r', '\U{b}', '\U{c}', '\U{1c}', '\U{1d}', '\U{1e}', '\U{1f}', '\U{85}', '\U{a0}'}
      || c in {'\U{1680}', '\U{2000}', '\U{2001}', '\U{2002}', '\U{2003}', '\U{2004}', '\U{2005}', '\U{2006}',
               '\U{2007}', '\U{2008}', '\U{2009}', '\U{200a}', '\U{2028}', '\U{2029}', '\U{202f}', '\U{205f}',
               '\U{3000}'}
  {
  }

  // ----- Python's string operations -----

  function StripStart(s: string, p: char -> bool): string {
    if s != "" && p(s[0]) then StripStart(s[1..], p) else s
  }

  function StripEnd(s: string, p: char -> bool): string {
    if s != "" && p(s[|s| - 1]) then StripEnd(s[..|s| - 1], p) else s
  }

  function Strip(s: string, p: char -> bool): string { StripEnd(StripStart(s, p), p) }

  /** re.sub("[p]+", "/", s): every maximal run of p becomes one slash. */
  function SubRuns(s: string, p: char -> bool): (r: string)
    decreases |s|
  {
    if s == "" then ""
    else if p(s[0]) then
      StripStartShorter(s[1..], p);
      "/" + SubRuns(StripStart(s[1..], p), p)
    else [s[0]] + SubRuns(s[1..], p)
  }

  lemma {:induction false} StripStartShorter(s: string, p: char -> bool)
    ensures |StripStart(s, p)| <= |s|
    ensures StripStart(s, p) != "" ==> !p(StripStart(s, p)[0])
  {
    if s != "" && p(s[0]) {
      StripStartShorter(s[1..], p);
    }
  }

  function Normalize(s: string): string {
    Strip(SubRuns(SubRuns(Strip(s, Space), Comma), Slash), Slash)
  }

  function Join(words: seq<string>): string {
    if words == [] then ""
    else if |words| == 1 then words[0]
    else words[0] + "/" + Join(words[1..])
  }

  /** s.split("/"). */
  function Split(s: string): (parts: seq<string>)
    ensures parts != []
  {
    if s == "" then [""]
    else if s[0] == '/' then [""] + Split(s[1..])
    else
      var rest := Split(s[1..]);
      [[s[0]] + rest[0]] + rest[1..]
  }

  /** [t.strip() for t in parts if t.strip()]. */
  function NonBlank(parts: seq<string>): seq<string> {
    if parts == [] then []
    else (if Strip(parts[0], Space) == "" then [] else [Strip(parts[0], Space)]) + NonBlank(parts[1..])
  }

  /** What the parser hands to float(). */
  function Parsed(s: string): seq<string> { NonBlank(Split(s)) }

  // ----- The words of a string: its maximal runs without separators -----

  function RunLength(s: string): (n: nat)
    ensures n <= |s|
    ensures forall i :: 0 <= i < n ==> !Separator(s[i])
    ensures n < |s| ==> Separator(s[n])
  {
    if s == "" || Separator(s[0]) then 0 else 1 + RunLength(s[1..])
  }

  function Words(s: string): seq<string>
    decreases |s|
  {
    if s == "" then []
    else if Separator(s[0]) then Words(s[1..])
    else [s[..RunLength(s)]] + Words(s[RunLength(s)..])
  }

  predicate Plain(w: string) { w != "" && forall i :: 0 <= i < |w| ==> !Separator(w[i]) }

  lemma {:induction false} WordsArePlain(s: string)
    ensures forall i :: 0 <= i < |Words(s)| ==> Plain(Words(s)[i])
    decreases |s|
  {
    if s == "" {
    } else if Separator(s[0]) {
      WordsArePlain(s[1..]);
    } else {
      WordsArePlain(s[RunLength(s)..]);
    }
  }

  /** Words, one character at a time. */
  lemma WordsCons(c: char, s: string)
    ensures Separator(c) ==> Words([c] + s) == Words(s)
    ensures !Separator(c) && (s == "" || Separator(s[0])) ==> Words([c] + s) == [[c]] + Words(s)
    ensures !Separator(c) && s != "" && !Separator(s[0]) ==>
      Words(s) != [] && Words([c] + s) == [[c] + Words(s)[0]] + Words(s)[1..]
  {
    var t := [c] + s;
    hide Separator;
    assert t[1..] == s;
    if !Separator(c) {
      if s == "" || Separator(s[0]) {
        assert RunLength(t) == 1;
        assert t[..1] == [c];
      } else {
        var n := RunLength(s);
        assert RunLength(t) == n + 1;
        assert t[..n + 1] == [c] + s[..n] && t[n + 1..] == s[n..];
      }
    }
  }

  // ----- Each step keeps the words -----

  lemma {:induction false} StripStartKeepsWords(s: string, p: char -> bool)
    requires forall c :: p(c) ==> Separator(c)
    ensures Words(StripStart(s, p)) == Words(s)
  {
    hide Separator;
    if s != "" && p(s[0]) {
      StripStartKeepsWords(s[1..], p);
    }
  }

  lemma {:induction false} WordsSnoc(s: string, c: char)
    requires Separator(c)
    ensures Words(s + [c]) == Words(s)
  {
    hide Separator, Words;
    if s == "" {
      assert s + [c] == [c] + "";
      WordsCons(c, "");
    } else {
      WordsSnoc(s[1..], c);
      assert s == [s[0]] + s[1..];
      assert s + [c] == [s[0]] + (s[1..] + [c]);
      WordsCons(s[0], s[1..]);
      WordsCons(s[0], s[1..] + [c]);
    }
  }

  lemma {:induction false} StripEndKeepsWords(s: string, p: char -> bool)
    requires forall c :: p(c) ==> Separator(c)
    ensures Words(StripEnd(s, p)) == Words(s)
  {
    hide Separator, Words;
    if s != "" && p(s[|s| - 1]) {
      StripEndKeepsWords(s[..|s| - 1], p);
      WordsSnoc(s[..|s| - 1], s[|s| - 1]);
      assert s == s[..|s| - 1] + [s[|s| - 1]];
    }
  }

  lemma StripKeepsWords(s: string, p: char -> bool)
    requires forall c :: p(c) ==> Separator(c)
    ensures Words(Strip(s, p)) == Words(s)
  {
    hide Separator, Words;
    StripStartKeepsWords(s, p);
    StripEndKeepsWords(StripStart(s, p), p);
  }

  lemma {:induction false} SubRunsKeepsWords(s: string, p: char -> bool)
    requires forall c :: p(c) ==> Separator(c)
    ensures Words(SubRuns(s, p)) == Words(s)
    ensures s != "" ==> SubRuns(s, p) != "" && (Separator(SubRuns(s, p)[0]) <==> Separator(s[0]))
    decreases |s|
  {
    Kinds();
    hide Separator, Words;
    if s != "" {
      assert s == [s[0]] + s[1..];
      WordsCons(s[0], s[1..]);
      if p(s[0]) {
        StripStartShorter(s[1..], p);
        StripStartKeepsWords(s[1..], p);
        SubRunsKeepsWords(StripStart(s[1..], p), p);
        WordsCons('/', SubRuns(StripStart(s[1..], p), p));
        assert Words(s) == Words(s[1..]);
      } else {
        SubRunsKeepsWords(s[1..], p);
        WordsCons(s[0], SubRuns(s[1..], p));
      }
    }
  }

  lemma NormalizeKeepsWords(s: string)
    ensures Words(Normalize(s)) == Words(s)
  {
    hide Words, SubRuns, Strip;
    Kinds();
    var a := Strip(s, Space);
    var b := SubRuns(a, Comma);
    var c := SubRuns(b, Slash);
    StripKeepsWords(s, Space);
    SubRunsKeepsWords(a, Comma);
    SubRunsKeepsWords(b, Slash);
    StripKeepsWords(c, Slash);
  }

  // ----- The shape of the result -----

  predicate OnlySlashes(s: string) { forall i :: 0 <= i < |s| ==> !Comma(s[i]) }

  predicate NoDoubleSlash(s: string) { forall i :: 0 <= i < |s| - 1 ==> !(s[i] == '/' && s[i + 1] == '/') }

  lemma {:induction false} SubCommas(s: string)
    ensures OnlySlashes(SubRuns(s, Comma))
    decreases |s|
  {
    Kinds();
    hide Comma;
    if s != "" {
      StripStartShorter(s[1..], Comma);
      SubCommas(StripStart(s[1..], Comma));
      SubCommas(s[1..]);
    }
  }

  lemma {:induction false} SubSlashes(s: string)
    requires OnlySlashes(s)
    ensures OnlySlashes(SubRuns(s, Slash)) && NoDoubleSlash(SubRuns(s, Slash))
    ensures s != "" && s[0] != '/' ==> SubRuns(s, Slash) != "" && SubRuns(s, Slash)[0] != '/'
    ensures s == "" ==> SubRuns(s, Slash) == ""
    decreases |s|
  {
    Kinds();
    hide Comma;
    if s != "" {
      if Slash(s[0]) {
        StripStartShorter(s[1..], Slash);
        StripStartKeeps(s[1..], Slash);
        SubSlashes(StripStart(s[1..], Slash));
      } else {
        SubSlashes(s[1..]);
      }
    }
  }

  lemma {:induction false} StripStartKeeps(s: string, p: char -> bool)
    ensures OnlySlashes(s) ==> OnlySlashes(StripStart(s, p))
    ensures NoDoubleSlash(s) ==> NoDoubleSlash(StripStart(s, p))
  {
    hide Comma;
    if s != "" && p(s[0]) {
      StripStartKeeps(s[1..], p);
    }
  }

  lemma {:induction false} StripEndCons(c: char, s: string)
    requires c != '/'
    ensures StripEnd([c] + s, Slash) == [c] + StripEnd(s, Slash)
  {
    if s == "" {
      assert [c] + s == [c];
    } else {
      assert ([c] + s)[..|s|] == [c] + s[..|s| - 1];
      if s[|s| - 1] == '/' {
        StripEndCons(c, s[..|s| - 1]);
      }
    }
  }

  lemma {:induction false} StripEndSlashCons(s: string)
    requires s != "" && s[0] != '/'
    ensures StripEnd("/" + s, Slash) == "/" + StripEnd(s, Slash)
    decreases |s|
  {
    var n := |s| - 1;
    assert ("/" + s)[..n + 1] == "/" + s[..n];
    if s[n] == '/' {
      StripEndSlashCons(s[..n]);
    }
  }

  /** A string separated by single slashes, none in front, is its words joined, up to slashes at its end. */
  lemma {:induction false} JoinOfWords(s: string)
    requires OnlySlashes(s) && NoDoubleSlash(s) && (s == "" || s[0] != '/')
    ensures StripEnd(s, Slash) == Join(Words(s))
    decreases |s|
  {
    hide Words, Comma;
    if s == "" {
      NoWords();
    } else {
      var c, t := s[0], s[1..];
      assert s == [c] + t && !Separator(c);
      WordsCons(c, t);
      StripEndCons(c, t);
      if t == "" {
        NoWords();
      } else if t[0] != '/' {
        assert !Separator(t[0]);
        JoinOfWords(t);
        JoinCons(c, Words(t));
      } else {
        var u := t[1..];
        assert t == "/" + u && Separator('/');
        WordsCons('/', u);
        if u == "" {
          NoWords();
          assert StripEnd(t, Slash) == "" by { assert t[..0] == ""; }
        } else {
          assert s[1] == '/' && s[2] == u[0];
          StripEndSlashCons(u);
          JoinOfWords(u);
          SomeWords(u);
          assert ([[c]] + Words(u))[1..] == Words(u);
        }
      }
    }
  }

  lemma NoWords()
    ensures Words("") == []
  {
  }

  lemma SomeWords(s: string)
    requires s != "" && !Separator(s[0])
    ensures Words(s) != []
  {
  }

  lemma JoinCons(c: char, words: seq<string>)
    requires words != []
    ensures Join([[c] + words[0]] + words[1..]) == [c] + Join(words)
  {
    assert ([[c] + words[0]] + words[1..])[1..] == words[1..];
  }

  /** The normaliser joins the words of the string with slashes. */
  lemma NormalizeIsJoin(s: string)
    ensures Normalize(s) == Join(Words(s))
  {
    hide Words, SubRuns, Comma;
    Kinds();
    var a := Strip(s, Space);
    var b := SubRuns(a, Comma);
    var c := SubRuns(b, Slash);
    var d := StripStart(c, Slash);
    SubCommas(a);
    SubSlashes(b);
    StripStartKeeps(c, Slash);
    StripStartShorter(c, Slash);
    JoinOfWords(d);
    StripKeepsWords(s, Space);
    SubRunsKeepsWords(a, Comma);
    SubRunsKeepsWords(b, Slash);
    StripStartKeepsWords(c, Slash);
  }

  lemma NormalizeTwice(s: string)
    ensures Normalize(Normalize(s)) == Normalize(s)
  {
    hide Normalize;
    NormalizeIsJoin(s);
    NormalizeIsJoin(Normalize(s));
    NormalizeKeepsWords(s);
  }

  // ----- What the parser reads back -----

  predicate Clean(w: string) { w != "" && (forall i :: 0 <= i < |w| ==> w[i] != '/') && Strip(w, Space) == w }

  lemma {:induction false} SplitWord(w: string, s: string)
    requires forall i :: 0 <= i < |w| ==> w[i] != '/'
    ensures Split(w) == [w]
    ensures Split(w + "/" + s) == [w] + Split(s)
  {
    if w == "" {
      assert w + "/" + s == "/" + s;
    } else {
      SplitWord(w[1..], s);
      assert (w + "/" + s)[1..] == w[1..] + "/" + s;
      assert [w[0]] + w[1..] == w;
    }
  }

  /** Clean parts survive joining and parsing, in order: also those of a list, which is joined unnormalised. */
  lemma {:induction false} ParsedJoin(words: seq<string>)
    requires forall i :: 0 <= i < |words| ==> Clean(words[i])
    ensures Parsed(Join(words)) == words
  {
    hide Strip, Split;
    if words == [] {
      BlankParses();
    } else {
      assert Clean(words[0]);
      SplitWord(words[0], Join(words[1..]));
      if |words| > 1 {
        ParsedJoin(words[1..]);
        NonBlankCons(words[0], Split(Join(words[1..])));
        assert words[0] + "/" + Join(words[1..]) == Join(words);
      } else {
        NonBlankCons(words[0], []);
        assert [words[0]] + [] == [words[0]];
      }
      assert [words[0]] + words[1..] == words;
    }
  }

  lemma NonBlankCons(w: string, parts: seq<string>)
    requires Clean(w)
    ensures NonBlank([w] + parts) == [w] + NonBlank(parts)
  {
    assert ([w] + parts)[1..] == parts;
  }

  lemma BlankParses()
    ensures Parsed("") == []
  {
  }

  lemma PlainIsClean(w: string)
    requires Plain(w)
    ensures Clean(w)
  {
    Kinds();
    assert !Separator(w[0]) && !Separator(w[|w| - 1]);
    forall i | 0 <= i < |w| ensures w[i] != '/' { assert !Separator(w[i]); }
  }

  /** From form to parser: the parser recovers exactly the words of what was typed, in order. */
  lemma ParserRecoversWords(s: string)
    ensures Parsed(Normalize(s)) == Words(s)
  {
    hide Words, Normalize, Parsed;
    NormalizeIsJoin(s);
    WordsArePlain(s);
    forall i | 0 <= i < |Words(s)| ensures Clean(Words(s)[i]) { PlainIsClean(Words(s)[i]); }
    ParsedJoin(Words(s));
  }
}
