/**
 * The JavaScript string operations the verification decision and the
 * button handler rely on: `toLowerCase` (ASCII only), `includes`,
 * `Array.prototype.join` and `split` on a one-character separator.
 */
module Text {

  /**
   * `toLowerCase` on one character, restricted to ASCII letters: an upper-case
   * letter becomes the letter 32 code points above it, anything else stays.
   */
  function LowerChar(c: char): (r: char)
    ensures !('A' <= r <= 'Z')
    ensures 'A' <= c <= 'Z' ==> 'a' <= r <= 'z' && r as int - c as int == 32
    ensures !('A' <= c <= 'Z') ==> r == c
  {
    if 'A' <= c <= 'Z' then (c as int + 32) as char else c
  }

  /** `toLowerCase` on a whole string: character by character. */
  function Lower(s: string): (r: string)
    ensures |r| == |s|
    ensures forall i :: 0 <= i < |s| ==> r[i] == LowerChar(s[i])
  {
    if s == [] then [] else [LowerChar(s[0])] + Lower(s[1..])
  }

  /** Lower-casing yields a newline only from a newline, and a second pass changes nothing. */
  lemma LowerCharKeeps(c: char)
    ensures LowerChar(c) == '\n' <==> c == '\n'
    ensures LowerChar(LowerChar(c)) == LowerChar(c)
  {
  }

  lemma LowerIdempotent(s: string)
    ensures Lower(Lower(s)) == Lower(s)
  {
    forall i | 0 <= i < |s| ensures Lower(Lower(s))[i] == Lower(s)[i] {
      LowerCharKeeps(s[i]);
    }
  }

  lemma LowerAppend(a: string, b: string)
    ensures Lower(a + b) == Lower(a) + Lower(b)
  {
    assert forall i :: 0 <= i < |a + b| ==> Lower(a + b)[i] == (Lower(a) + Lower(b))[i];
  }

  // ---------------------------------------------------------------------
  // Substring containment
  // ---------------------------------------------------------------------

  /** `needle` occurs in `hay` starting at position `k`. */
  predicate OccursAt(hay: string, needle: string, k: nat)
  {
    k + |needle| <= |hay| && hay[k..k + |needle|] == needle
  }

  /** The meaning of `hay.includes(needle)`: some position holds the needle. */
  ghost predicate Contains(hay: string, needle: string)
  {
    exists k: nat :: OccursAt(hay, needle, k)
  }

  /** Positions in the tail of a non-empty string are the positions after the first. */
  lemma OccursAtTail(hay: string, needle: string, k: nat)
    requires hay != []
    ensures OccursAt(hay[1..], needle, k) <==> OccursAt(hay, needle, k + 1)
  {
    if k + 1 + |needle| <= |hay| {
      assert hay[1..][k..k + |needle|] == hay[k + 1..k + 1 + |needle|];
    }
  }

  /** An occurrence in the tail of a string is an occurrence in the string. */
  lemma ContainsTail(hay: string, needle: string)
    requires hay != []
    ensures Contains(hay[1..], needle) ==> Contains(hay, needle)
  {
    if Contains(hay[1..], needle) {
      var k: nat :| OccursAt(hay[1..], needle, k);
      OccursAtTail(hay, needle, k);
    }
  }

  /**
   * `String.prototype.includes`: try each starting position from the left.
   * Whatever it finds really occurs; IncludesIsContains shows it finds every
   * occurrence.
   */
  function Includes(hay: string, needle: string): (found: bool)
    ensures needle <= hay ==> found
    ensures found ==> Contains(hay, needle)
  {
    if needle <= hay then
      assert OccursAt(hay, needle, 0);
      true
    else if hay == [] then false
    else
      ContainsTail(hay, needle);
      Includes(hay[1..], needle)
  }

  /** The executable search finds the needle exactly when it occurs somewhere. */
  lemma {:induction false} IncludesIsContains(hay: string, needle: string)
    ensures Includes(hay, needle) <==> Contains(hay, needle)
  {
    if needle <= hay {
      assert OccursAt(hay, needle, 0);
    } else if hay == [] {
      assert |needle| > 0;
    } else {
      IncludesIsContains(hay[1..], needle);
      if Contains(hay, needle) {
        var k: nat :| OccursAt(hay, needle, k);
        assert OccursAt(hay, needle, 0) ==> needle <= hay;
        OccursAtTail(hay, needle, k - 1);
      }
    }
  }

  /** An occurrence inside the left operand of a concatenation. */
  lemma OccursAtLeft(a: string, b: string, needle: string, k: nat)
    requires k + |needle| <= |a|
    ensures OccursAt(a + b, needle, k) <==> OccursAt(a, needle, k)
  {
    assert (a + b)[k..k + |needle|] == a[k..k + |needle|];
  }

  /** An occurrence inside the right operand of a concatenation. */
  lemma OccursAtRight(a: string, b: string, needle: string, k: nat)
    ensures OccursAt(a + b, needle, |a| + k) <==> OccursAt(b, needle, k)
  {
    if k + |needle| <= |b| {
      assert (a + b)[|a| + k..|a| + k + |needle|] == b[k..k + |needle|];
    }
  }

  // ---------------------------------------------------------------------
  // Array.prototype.join and String.prototype.split
  // ---------------------------------------------------------------------

  /**
   * `parts.join(sep)`: the pieces with `sep` between neighbours.  With a
   * non-empty separator the result is "" only for no pieces or a single
   * empty piece.
   */
  function Join(parts: seq<string>, sep: string): (r: string)
    ensures |sep| > 0 ==> (r == "" <==> |parts| == 0 || (|parts| == 1 && parts[0] == ""))
  {
    if |parts| == 0 then ""
    else if |parts| == 1 then parts[0]
    else parts[0] + sep + Join(parts[1..], sep)
  }

  lemma JoinCons(x: string, xs: seq<string>, sep: string)
    requires |xs| >= 1
    ensures Join([x] + xs, sep) == x + sep + Join(xs, sep)
  {
    assert ([x] + xs)[1..] == xs;
  }

  /** `s.split(c)` for a one-character separator: the pieces between the separators. */
  function Split(s: string, c: char): (parts: seq<string>)
    ensures |parts| >= 1
    ensures forall i :: 0 <= i < |parts| ==> c !in parts[i]
    ensures parts[0] <= s && (|parts[0]| < |s| ==> s[|parts[0]|] == c)
  {
    if s == [] then [""]
    else
      var rest := Split(s[1..], c);
      if s[0] == c then [""] + rest
      else [[s[0]] + rest[0]] + rest[1..]
  }

  /** Putting a character in front of the first piece puts it in front of the join. */
  lemma JoinExtendFirst(x: char, parts: seq<string>, sep: string)
    requires |parts| >= 1
    ensures Join([[x] + parts[0]] + parts[1..], sep) == [x] + Join(parts, sep)
  {
    if |parts| > 1 {
      JoinCons([x] + parts[0], parts[1..], sep);
      JoinCons(parts[0], parts[1..], sep);
      assert parts == [parts[0]] + parts[1..];
    }
  }

  /** Joining the pieces of a split with the separator gives back the string. */
  lemma {:induction false} JoinSplit(s: string, c: char)
    ensures Join(Split(s, c), [c]) == s
  {
    if s != [] {
      var rest := Split(s[1..], c);
      JoinSplit(s[1..], c);
      assert s == [s[0]] + s[1..];
      if s[0] == c {
        JoinCons("", rest, [c]);
      } else {
        JoinExtendFirst(s[0], rest, [c]);
      }
    }
  }

  lemma {:induction false} SplitNoSeparator(x: string, c: char)
    requires c !in x
    ensures Split(x, c) == [x]
  {
    if x != [] {
      SplitNoSeparator(x[1..], c);
      assert x == [x[0]] + x[1..];
    }
  }

  /** Splitting a separator-free piece followed by the separator peels that piece off. */
  lemma {:induction false} SplitAfterPiece(x: string, t: string, c: char)
    requires c !in x
    ensures Split(x + [c] + t, c) == [x] + Split(t, c)
  {
    if x == [] {
      assert (x + [c] + t)[1..] == t;
    } else {
      var s := x + [c] + t;
      SplitAfterPiece(x[1..], t, c);
      assert s[0] == x[0] && s[0] != c;
      assert s[1..] == x[1..] + [c] + t;
      var rest := Split(s[1..], c);
      assert rest == [x[1..]] + Split(t, c);
      assert Split(s, c) == [[s[0]] + rest[0]] + rest[1..];
      assert [s[0]] + rest[0] == x;
    }
  }

  /** Splitting what was joined from separator-free pieces gives back the pieces. */
  lemma {:induction false} SplitJoin(parts: seq<string>, c: char)
    requires |parts| >= 1
    requires forall i :: 0 <= i < |parts| ==> c !in parts[i]
    ensures Split(Join(parts, [c]), c) == parts
  {
    if |parts| == 1 {
      SplitNoSeparator(parts[0], c);
    } else {
      SplitJoin(parts[1..], c);
      SplitAfterPiece(parts[0], Join(parts[1..], [c]), c);
      assert parts == [parts[0]] + parts[1..];
    }
  }

  /** Whatever occurs in one joined piece occurs in the joined string. */
  lemma {:induction false} ContainsPiece(parts: seq<string>, sep: string, i: nat, needle: string)
    requires i < |parts| && Contains(parts[i], needle)
    ensures Contains(Join(parts, sep), needle)
  {
    var k: nat :| OccursAt(parts[i], needle, k);
    OccursInPiece(parts, sep, i, needle, k);
  }

  /** An occurrence at `k` in piece `i` is an occurrence in the joined string. */
  lemma {:induction false} OccursInPiece(parts: seq<string>, sep: string, i: nat, needle: string, k: nat)
    requires i < |parts| && OccursAt(parts[i], needle, k)
    ensures Contains(Join(parts, sep), needle)
  {
    if |parts| > 1 {
      var rest := Join(parts[1..], sep);
      var whole := parts[0] + (sep + rest);
      assert Join(parts, sep) == whole;
      if i == 0 {
        OccursAtLeft(parts[0], sep + rest, needle, k);
        assert OccursAt(whole, needle, k);
      } else {
        assert parts[1..][i - 1] == parts[i];
        OccursInPiece(parts[1..], sep, i - 1, needle, k);
        var j: nat :| OccursAt(rest, needle, j);
        OccursAtRight(sep, rest, needle, j);
        OccursAtRight(parts[0], sep + rest, needle, |sep| + j);
        assert OccursAt(whole, needle, |parts[0]| + |sep| + j);
      }
    } else {
      assert OccursAt(Join(parts, sep), needle, k);
    }
  }

  /** A string with some character of the needle missing cannot contain the needle. */
  lemma MissingCharNotContained(hay: string, needle: string, j: nat)
    requires j < |needle| && needle[j] !in hay
    ensures !Contains(hay, needle)
  {
  }

  /** A separator-free needle in `x + [c] + rest` lies wholly in `x` or wholly in `rest`. */
  lemma ContainsAroundSeparator(x: string, c: char, rest: string, needle: string)
    requires c !in needle
    ensures Contains(x + [c] + rest, needle) <==> Contains(x, needle) || Contains(rest, needle)
  {
    var whole := x + ([c] + rest);
    assert whole == x + [c] + rest;
    if Contains(whole, needle) {
      var k: nat :| OccursAt(whole, needle, k);
      assert whole[|x|] == c;
      if k + |needle| <= |x| {
        OccursAtLeft(x, [c] + rest, needle, k);
      } else if k > |x| {
        OccursAtRight(x, [c] + rest, needle, k - |x|);
        OccursAtRight([c], rest, needle, k - |x| - 1);
      }
    }
    if Contains(x, needle) {
      var k: nat :| OccursAt(x, needle, k);
      OccursAtLeft(x, [c] + rest, needle, k);
    }
    if Contains(rest, needle) {
      var j: nat :| OccursAt(rest, needle, j);
      OccursAtRight([c], rest, needle, j);
      OccursAtRight(x, [c] + rest, needle, 1 + j);
    }
  }

  /**
   * When the needle contains no separator, it occurs in the joined string
   * exactly when it occurs in one of the joined pieces: no occurrence can
   * straddle a separator.
   */
  lemma {:induction false} ContainsJoin(parts: seq<string>, c: char, needle: string)
    requires |parts| >= 1
    requires c !in needle
    ensures Contains(Join(parts, [c]), needle) <==>
            exists i :: 0 <= i < |parts| && Contains(parts[i], needle)
  {
    if |parts| > 1 {
      var tail := parts[1..];
      ContainsJoin(tail, c, needle);
      ContainsAroundSeparator(parts[0], c, Join(tail, [c]), needle);
      if exists i :: 0 <= i < |parts| && Contains(parts[i], needle) {
        var i :| 0 <= i < |parts| && Contains(parts[i], needle);
        if i > 0 {
          assert Contains(tail[i - 1], needle);
        }
      }
      if exists i :: 0 <= i < |tail| && Contains(tail[i], needle) {
        var i :| 0 <= i < |tail| && Contains(tail[i], needle);
        assert Contains(parts[i + 1], needle);
      }
    }
  }
}
