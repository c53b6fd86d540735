/** The two string operations of the handlers: `str.lstrip` with one
    character and `str.join`. */
module Text {

  /** `s.lstrip(c)`: removes the whole run of leading `c` characters.  The
      contract characterises the result completely (see LStripUnique). */
  function LStrip(s: string, c: char): (r: string)
    ensures |r| <= |s| && r == s[|s| - |r|..]
    ensures forall i :: 0 <= i < |s| - |r| ==> s[i] == c
    ensures r == [] || r[0] != c
    decreases |s|
  {
    if s != [] && s[0] == c then LStrip(s[1..], c) else s
  }

  /** Any suffix of `s` that is preceded only by `c` and does not itself start
      with `c` is the result of `LStrip`. */
  lemma LStripUnique(s: string, c: char, t: string)
    requires |t| <= |s| && t == s[|s| - |t|..]
    requires forall i :: 0 <= i < |s| - |t| ==> s[i] == c
    requires t == [] || t[0] != c
    ensures t == LStrip(s, c)
  {
  }

  /** `k` copies of `c`. */
  function Repeat(c: char, k: nat): (r: string)
    ensures |r| == k && forall i :: 0 <= i < k ==> r[i] == c
  {
    seq(k, _ => c)
  }

  /** The input is the stripped run of `c` followed by the result. */
  lemma LStripSplit(s: string, c: char)
    ensures s == Repeat(c, |s| - |LStrip(s, c)|) + LStrip(s, c)
  {
    var r := LStrip(s, c);
    var k := |s| - |r|;
    assert s == s[..k] + s[k..];
    assert s[..k] == Repeat(c, k);
  }

  /** A whole run of leading `c`, not just the first one, is removed. */
  lemma {:induction false} LStripRun(c: char, k: nat, t: string)
    ensures LStrip(Repeat(c, k) + t, c) == LStrip(t, c)
    decreases k
  {
    if k > 0 {
      var s := Repeat(c, k) + t;
      assert s[0] == c;
      assert s[1..] == Repeat(c, k - 1) + t;
      assert LStrip(s, c) == LStrip(s[1..], c);
      LStripRun(c, k - 1, t);
    } else {
      assert Repeat(c, k) + t == t;
    }
  }

  /** Stripping twice strips nothing more. */
  lemma LStripIdempotent(s: string, c: char)
    ensures LStrip(LStrip(s, c), c) == LStrip(s, c)
  {
  }

  /** `sep.join(items)`. */
  function Join(items: seq<string>, sep: string): string {
    if |items| == 0 then ""
    else if |items| == 1 then items[0]
    else items[0] + sep + Join(items[1..], sep)
  }

  /** `w` occurs in `s` at some position. */
  ghost predicate Occurs(w: string, s: string) {
    exists i :: OccursAt(w, s, i)
  }

  /** `w` occurs in `s` starting at position `i`. */
  predicate OccursAt(w: string, s: string, i: int) {
    0 <= i <= |s| - |w| && s[i..i + |w|] == w
  }

  /** A joined message names every one of its items. */
  lemma {:induction false} JoinNamesEach(items: seq<string>, sep: string, k: nat)
    requires k < |items|
    ensures Occurs(items[k], Join(items, sep))
    decreases |items|
  {
    var j := Join(items, sep);
    var w := items[k];
    if |items| == 1 {
      assert OccursAt(w, j, 0);
    } else if k == 0 {
      assert j == w + (sep + Join(items[1..], sep));
      assert OccursAt(w, j, 0);
    } else {
      var tail := Join(items[1..], sep);
      JoinNamesEach(items[1..], sep, k - 1);
      var i :| OccursAt(w, tail, i);
      var off := |items[0]| + |sep|;
      assert j == (items[0] + sep) + tail;
      assert j[off + i..off + i + |w|] == tail[i..i + |w|];
      assert OccursAt(w, j, off + i);
    }
  }
}
