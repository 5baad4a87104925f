/** Strings as the engine compares them.
  *
  * Every identity of the engine is a newtype over a string, ordered by its
  * bytes. A string is therefore the sequence of its bytes, and the order is the
  * byte-lexicographic one; UTF-8 validity plays no part in any decision.
  */
module Text {
  newtype Byte = x: int | 0 <= x < 256

  type Text = seq<Byte>

  predicate LexLess(a: Text, b: Text) {
    if b == [] then false
    else if a == [] then true
    else if a[0] != b[0] then a[0] < b[0]
    else LexLess(a[1..], b[1..])
  }

  lemma {:induction false} LexIrreflexive(a: Text)
    ensures !LexLess(a, a)
  {
    if a != [] {
      LexIrreflexive(a[1..]);
    }
  }

  lemma {:induction false} LexTransitive(a: Text, b: Text, c: Text)
    requires LexLess(a, b) && LexLess(b, c)
    ensures LexLess(a, c)
  {
    if a != [] && a[0] == b[0] == c[0] {
      LexTransitive(a[1..], b[1..], c[1..]);
    }
  }

  lemma {:induction false} LexTotal(a: Text, b: Text)
    ensures a == b || LexLess(a, b) || LexLess(b, a)
  {
    if a != [] && b != [] && a[0] == b[0] {
      LexTotal(a[1..], b[1..]);
      if a[1..] == b[1..] {
        assert a == [a[0]] + a[1..] == [b[0]] + b[1..] == b;
      }
    }
  }

  /** The first of some strings, where an ordered map of theirs starts. */
  predicate IsLeast(least: Text, texts: set<Text>) {
    least in texts && forall text :: text in texts ==> text == least || LexLess(least, text)
  }

  lemma {:induction false} LeastOf(texts: set<Text>) returns (least: Text)
    requires texts != {}
    ensures IsLeast(least, texts)
  {
    var first :| first in texts;
    var rest := texts - {first};
    assert texts == rest + {first};
    if rest == {} {
      least := first;
    } else {
      var low := LeastOf(rest);
      LexTotal(first, low);
      least := if LexLess(first, low) then first else low;
      forall text | text in texts ensures text == least || LexLess(least, text) {
        if text != first && text != low && least == first { LexTransitive(first, low, text); }
      }
    }
  }

  lemma LeastText(texts: set<Text>)
    requires texts != {}
    ensures exists least :: IsLeast(least, texts)
  {
    var least := LeastOf(texts);
    assert IsLeast(least, texts);
  }
}
