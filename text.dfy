/** The string operations the pages apply: case folding, `includes`,
    `split`/`join`, the character ordering of `Array.prototype.sort`, and
    the small label formatters built from them. */
module Text {

  predicate IsUpper(c: char) { 'A' <= c <= 'Z' }
  predicate IsLower(c: char) { 'a' <= c <= 'z' }

  /** `toLowerCase` on one character, for ASCII letters only; other letters
      are left as they are. */
  function LowerChar(c: char): char {
    if IsUpper(c) then (c as int + 32) as char else c
  }

  /** `toUpperCase` on one character, for ASCII letters only; other letters
      are left as they are. */
  function UpperChar(c: char): char {
    if IsLower(c) then (c as int - 32) as char else c
  }

  function ToLower(s: string): (r: string)
    ensures |r| == |s|
    ensures forall i :: 0 <= i < |s| ==> r[i] == LowerChar(s[i])
  {
    seq(|s|, i requires 0 <= i < |s| => LowerChar(s[i]))
  }

  /** `s.includes(sub)`: some window of `s` equals `sub`. */
  predicate Contains(s: string, sub: string)
    decreases |s|
  {
    sub <= s || (|s| > 0 && Contains(s[1..], sub))
  }

  /** `s.toLowerCase().includes(term.toLowerCase())`, the search test every list page uses. */
  predicate ContainsIgnoreCase(s: string, term: string) {
    Contains(ToLower(s), ToLower(term))
  }

  /** An empty search term matches every string. */
  lemma ContainsIgnoreCaseEmpty(s: string)
    ensures ContainsIgnoreCase(s, "")
  {
    ContainsEmpty(ToLower(s));
  }

  /** Lower-casing works character by character, so it distributes over
      concatenation. */
  lemma ToLowerConcat(a: string, b: string)
    ensures ToLower(a + b) == ToLower(a) + ToLower(b)
  {
  }

  /** A search term found in one part of a string is found in the whole:
      the template-literal search strings of the list pages are built by
      concatenating parts. */
  lemma ContainsIgnoreCaseInside(pre: string, mid: string, post: string, term: string)
    requires ContainsIgnoreCase(mid, term)
    ensures ContainsIgnoreCase(pre + mid + post, term)
  {
    var t := ToLower(term);
    ToLowerConcat(pre, mid);
    ToLowerConcat(pre + mid, post);
    var whole := ToLower(pre) + ToLower(mid) + ToLower(post);
    ContainsAt(ToLower(mid), t);
    var i :| OccursAt(ToLower(mid), t, i);
    assert whole[|pre| + i..|pre| + i + |t|] == ToLower(mid)[i..i + |t|];
    assert OccursAt(whole, t, |pre| + i);
    ContainsAt(whole, t);
  }

  /** A search term found in one of the joined parts is found in the join. */
  lemma {:induction false} ContainsIgnoreCaseInJoin(parts: seq<string>, k: int, sep: string, term: string)
    requires 0 <= k < |parts| && ContainsIgnoreCase(parts[k], term)
    ensures ContainsIgnoreCase(Join(parts, sep), term)
    decreases |parts|
  {
    if |parts| == 1 {
      ContainsIgnoreCaseInside("", parts[0], "", term);
      assert "" + parts[0] + "" == Join(parts, sep);
    } else if k == 0 {
      ContainsIgnoreCaseInside("", parts[0], sep + Join(parts[1..], sep), term);
      assert "" + parts[0] + (sep + Join(parts[1..], sep)) == Join(parts, sep);
    } else {
      ContainsIgnoreCaseInJoin(parts[1..], k - 1, sep, term);
      ContainsIgnoreCaseInside(parts[0] + sep, Join(parts[1..], sep), "", term);
      assert parts[0] + sep + Join(parts[1..], sep) + "" == Join(parts, sep);
    }
  }

  /** `sub` occurs in `s` starting at offset `i`. */
  predicate OccursAt(s: string, sub: string, i: int) {
    0 <= i <= |s| - |sub| && s[i..i + |sub|] == sub
  }

  /** `includes` holds exactly when `sub` occurs at some offset of `s`. */
  lemma {:induction false} ContainsAt(s: string, sub: string)
    ensures Contains(s, sub) <==> exists i :: OccursAt(s, sub, i)
    decreases |s|
  {
    if sub <= s {
      assert OccursAt(s, sub, 0);
    } else if |s| == 0 {
    } else {
      ContainsAt(s[1..], sub);
      if Contains(s[1..], sub) {
        var i :| OccursAt(s[1..], sub, i);
        assert s[1..][i..i + |sub|] == s[i + 1..i + 1 + |sub|];
        assert OccursAt(s, sub, i + 1);
      }
      if exists i :: OccursAt(s, sub, i) {
        var i :| OccursAt(s, sub, i);
        assert i != 0;
        assert s[1..][i - 1..i - 1 + |sub|] == s[i..i + |sub|];
        assert OccursAt(s[1..], sub, i - 1);
      }
    }
  }

  /** The empty search term is contained in every string. */
  lemma ContainsEmpty(s: string)
    ensures Contains(s, "")
  {
  }

  /** `s.split(sep)` for a one-character separator: never empty, and the
      pieces are the maximal runs between separators. */
  function Split(s: string, sep: char): (r: seq<string>)
    ensures |r| >= 1
    ensures forall k :: 0 <= k < |r| ==> sep !in r[k]
    decreases |s|
  {
    if |s| == 0 then [""]
    else if s[0] == sep then [""] + Split(s[1..], sep)
    else
      var rest := Split(s[1..], sep);
      [[s[0]] + rest[0]] + rest[1..]
  }

  /** `parts.join(sep)`. */
  function Join(parts: seq<string>, sep: string): string
    decreases |parts|
  {
    if |parts| == 0 then ""
    else if |parts| == 1 then parts[0]
    else parts[0] + sep + Join(parts[1..], sep)
  }

  /** Joining one more piece adds the separator and that piece at the end. */
  lemma {:induction false} JoinAppend(parts: seq<string>, x: string, sep: string)
    requires |parts| >= 1
    ensures Join(parts + [x], sep) == Join(parts, sep) + sep + x
    decreases |parts|
  {
    if |parts| == 1 {
      assert parts + [x] == [parts[0], x];
    } else {
      JoinAppend(parts[1..], x, sep);
      assert (parts + [x])[0] == parts[0] && (parts + [x])[1..] == parts[1..] + [x];
      assert Join(parts + [x], sep) == parts[0] + sep + (Join(parts[1..], sep) + sep + x);
    }
  }

  /** Joining two non-empty lists is joining each and putting one separator
      between them. */
  lemma {:induction false} JoinConcat(a: seq<string>, b: seq<string>, sep: string)
    requires |a| >= 1 && |b| >= 1
    ensures Join(a + b, sep) == Join(a, sep) + sep + Join(b, sep)
    decreases |a|
  {
    if |a| == 1 {
      assert (a + b)[1..] == b;
    } else {
      JoinConcat(a[1..], b, sep);
      assert (a + b)[1..] == a[1..] + b;
    }
  }

  /** Joining what `split` produced with the same separator gives the string back. */
  lemma {:induction false} JoinSplit(s: string, sep: char)
    ensures Join(Split(s, sep), [sep]) == s
    decreases |s|
  {
    if |s| == 0 {
    } else if s[0] == sep {
      JoinSplit(s[1..], sep);
      var rest := Split(s[1..], sep);
      assert Split(s, sep) == [""] + rest;
      assert ([""] + rest)[1..] == rest;
      assert Join([""] + rest, [sep]) == "" + [sep] + Join(rest, [sep]);
      assert s == [sep] + s[1..];
    } else {
      JoinSplit(s[1..], sep);
      var rest := Split(s[1..], sep);
      var parts := [[s[0]] + rest[0]] + rest[1..];
      assert Split(s, sep) == parts;
      if |rest| == 1 {
        assert Join(parts, [sep]) == [s[0]] + rest[0];
        assert Join(rest, [sep]) == rest[0];
      } else {
        assert parts[1..] == rest[1..];
        assert Join(parts, [sep]) == [s[0]] + rest[0] + [sep] + Join(rest[1..], [sep]);
        assert Join(rest, [sep]) == rest[0] + [sep] + Join(rest[1..], [sep]);
      }
      assert s == [s[0]] + s[1..];
    }
  }

  /** Splitting a join of separator-free pieces gives the pieces back. */
  lemma {:induction false} SplitJoin(parts: seq<string>, sep: char)
    requires |parts| >= 1
    requires forall k :: 0 <= k < |parts| ==> sep !in parts[k]
    ensures Split(Join(parts, [sep]), sep) == parts
    decreases |parts|, |parts[0]|
  {
    var p := parts[0];
    if |p| == 0 {
      if |parts| == 1 {
      } else {
        var tail := Join(parts[1..], [sep]);
        assert Join(parts, [sep]) == [sep] + tail;
        SplitJoin(parts[1..], sep);
        assert ([sep] + tail)[1..] == tail;
        assert parts == [""] + parts[1..];
      }
    } else {
      var shorter := [p[1..]] + parts[1..];
      assert forall k :: 0 <= k < |shorter| ==> sep !in shorter[k] by {
        forall k | 0 <= k < |shorter| ensures sep !in shorter[k] {
          if k == 0 {
            assert forall c :: c in p[1..] ==> c in p;
          } else {
            assert shorter[k] == parts[k];
          }
        }
      }
      SplitJoin(shorter, sep);
      var whole := Join(parts, [sep]);
      assert shorter[1..] == parts[1..];
      assert whole == [p[0]] + Join(shorter, [sep]) by {
        if |parts| == 1 {
          assert p == [p[0]] + p[1..];
        } else {
          assert whole == p + [sep] + Join(parts[1..], [sep]);
          assert Join(shorter, [sep]) == p[1..] + [sep] + Join(parts[1..], [sep]);
          assert p == [p[0]] + p[1..];
        }
      }
      assert p[0] in p;
      assert whole[0] == p[0] && whole[1..] == Join(shorter, [sep]);
      var rest := Split(whole[1..], sep);
      assert rest == shorter;
      assert Split(whole, sep) == [[p[0]] + p[1..]] + parts[1..];
      assert [p[0]] + p[1..] == p;
      assert parts == [p] + parts[1..];
    }
  }

  /** `w.charAt(0).toUpperCase() + w.slice(1)`. */
  function Capitalize(w: string): (r: string)
    ensures |r| == |w|
    ensures |w| > 0 ==> r[0] == UpperChar(w[0]) && r[1..] == w[1..]
  {
    if |w| == 0 then "" else [UpperChar(w[0])] + w[1..]
  }

  function CapitalizeAll(ws: seq<string>): (r: seq<string>)
    ensures |r| == |ws|
    ensures forall k :: 0 <= k < |ws| ==> r[k] == Capitalize(ws[k])
  {
    seq(|ws|, k requires 0 <= k < |ws| => Capitalize(ws[k]))
  }

  /** The status / profile-type label: `s.split('_').map(capitalize).join(' ')`. */
  function SnakeToTitle(s: string): string {
    Join(CapitalizeAll(Split(s, '_')), " ")
  }

  /** Upper-casing a character never turns it into a space. */
  lemma UpperCharNotSpace(c: char)
    ensures UpperChar(c) == ' ' <==> c == ' '
  {
  }

  /** For a value without spaces, the label's words are exactly the
      capitalised `_`-separated words of the value, in order. */
  lemma SnakeToTitleWords(s: string)
    requires ' ' !in s
    ensures Split(SnakeToTitle(s), ' ') == CapitalizeAll(Split(s, '_'))
  {
    var words := Split(s, '_');
    var caps := CapitalizeAll(words);
    SplitPiecesFromString(s, '_');
    forall k, j | 0 <= k < |caps| && 0 <= j < |caps[k]| ensures caps[k][j] != ' ' {
      var w := words[k];
      if j == 0 {
        UpperCharNotSpace(w[0]);
        assert w[0] in w;
      } else {
        assert caps[k][j] == w[j];
        assert w[j] in w;
      }
    }
    SplitJoin(caps, ' ');
  }

  /** Every character of every piece of `split` comes from the string. */
  lemma {:induction false} SplitPiecesFromString(s: string, sep: char)
    ensures forall k, c :: 0 <= k < |Split(s, sep)| && c in Split(s, sep)[k] ==> c in s
    decreases |s|
  {
    if |s| > 0 {
      SplitPiecesFromString(s[1..], sep);
      assert forall c :: c in s[1..] ==> c in s;
    }
  }

  /** Lexicographic order by character (a Unicode scalar value). JavaScript
      compares UTF-16 code units; the two orders agree on strings without
      characters above U+FFFF. */
  predicate LexLessEq(a: string, b: string)
    decreases |a|
  {
    |a| == 0 || (|b| > 0 && (a[0] < b[0] || (a[0] == b[0] && LexLessEq(a[1..], b[1..]))))
  }

  lemma {:induction false} LexReflexive(a: string)
    ensures LexLessEq(a, a)
    decreases |a|
  {
    if |a| > 0 {
      LexReflexive(a[1..]);
    }
  }

  lemma {:induction false} LexTotal(a: string, b: string)
    ensures LexLessEq(a, b) || LexLessEq(b, a)
    decreases |a|
  {
    if |a| > 0 && |b| > 0 && a[0] == b[0] {
      LexTotal(a[1..], b[1..]);
    }
  }

  lemma {:induction false} LexTransitive(a: string, b: string, c: string)
    requires LexLessEq(a, b) && LexLessEq(b, c)
    ensures LexLessEq(a, c)
    decreases |a|
  {
    if |a| > 0 && a[0] == b[0] && b[0] == c[0] {
      LexTransitive(a[1..], b[1..], c[1..]);
    }
  }

  lemma {:induction false} LexAntisymmetric(a: string, b: string)
    requires LexLessEq(a, b) && LexLessEq(b, a)
    ensures a == b
    decreases |a|
  {
    if |a| > 0 {
      LexAntisymmetric(a[1..], b[1..]);
      assert a == [a[0]] + a[1..] && b == [b[0]] + b[1..];
    }
  }

  /** What `trim` strips: the characters of the WhiteSpace and
      LineTerminator productions of the ECMAScript lexical grammar, the
      Unicode space separators included. */
  predicate IsWhitespace(c: char) {
    c == '\t' || c == '\n' || c == '\U{000B}' || c == '\U{000C}' || c == '\r' || c == ' '
    || c == '\U{00A0}' || c == '\U{1680}' || '\U{2000}' <= c <= '\U{200A}'
    || c == '\U{2028}' || c == '\U{2029}' || c == '\U{202F}' || c == '\U{205F}'
    || c == '\U{3000}' || c == '\U{FEFF}'
  }

  /** `s.replace(/([A-Z])/g, ' $1')`: a space before every upper-case letter. */
  function SpaceBeforeUpper(s: string): string
    decreases |s|
  {
    if |s| == 0 then ""
    else (if IsUpper(s[0]) then [' ', s[0]] else [s[0]]) + SpaceBeforeUpper(s[1..])
  }

  /** Dropping every space: undoes `SpaceBeforeUpper` on a key without spaces. */
  function RemoveSpaces(s: string): (r: string)
    decreases |s|
  {
    if |s| == 0 then "" else (if s[0] == ' ' then "" else [s[0]]) + RemoveSpaces(s[1..])
  }

  /** The spaces `SpaceBeforeUpper` inserts are the only change it makes:
      removing them gives the key back. */
  lemma {:induction false} SpaceBeforeUpperUndone(s: string)
    requires ' ' !in s
    ensures RemoveSpaces(SpaceBeforeUpper(s)) == s
    decreases |s|
  {
    if |s| > 0 {
      assert ' ' !in s[1..] by { assert forall c :: c in s[1..] ==> c in s; }
      SpaceBeforeUpperUndone(s[1..]);
      var head := if IsUpper(s[0]) then [' ', s[0]] else [s[0]];
      RemoveSpacesConcat(head, SpaceBeforeUpper(s[1..]));
      assert s[0] in s;
      if IsUpper(s[0]) {
        assert RemoveSpaces(head) == [s[0]] by {
          assert head[1..] == [s[0]];
          assert [s[0]][1..] == [];
        }
      } else {
        assert RemoveSpaces(head) == [s[0]] by { assert [s[0]][1..] == []; }
      }
      assert s == [s[0]] + s[1..];
    }
  }

  lemma {:induction false} RemoveSpacesConcat(a: string, b: string)
    ensures RemoveSpaces(a + b) == RemoveSpaces(a) + RemoveSpaces(b)
    decreases |a|
  {
    if |a| > 0 {
      RemoveSpacesConcat(a[1..], b);
      assert (a + b)[1..] == a[1..] + b;
    } else {
      assert a + b == b;
    }
  }

  /** A key with no upper-case letters is left as it is. */
  lemma {:induction false} SpaceBeforeUpperNoUpper(s: string)
    requires forall i :: 0 <= i < |s| ==> !IsUpper(s[i])
    ensures SpaceBeforeUpper(s) == s
    decreases |s|
  {
    if |s| > 0 {
      SpaceBeforeUpperNoUpper(s[1..]);
      assert s == [s[0]] + s[1..];
    }
  }

  function TrimStart(s: string): (r: string)
    decreases |s|
  {
    if |s| > 0 && IsWhitespace(s[0]) then TrimStart(s[1..]) else s
  }

  function TrimEnd(s: string): (r: string)
    decreases |s|
  {
    if |s| > 0 && IsWhitespace(s[|s| - 1]) then TrimEnd(s[..|s| - 1]) else s
  }

  function Trim(s: string): string {
    TrimEnd(TrimStart(s))
  }
}
