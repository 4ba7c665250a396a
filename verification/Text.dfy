/** Order and search on strings. */
module Text {
  predicate Contains(s: string, sub: string) {
    sub <= s || (s != "" && Contains(s[1..], sub))
  }

  ghost predicate StandsAt(s: string, sub: string, i: nat) {
    i + |sub| <= |s| && s[i..i + |sub|] == sub
  }

  /** `sub` stands somewhere in `s`. */
  ghost predicate Mentions(s: string, sub: string) {
    exists i: nat :: StandsAt(s, sub, i)
  }

  lemma StandsLater(s: string, sub: string, i: nat)
    requires s != ""
    ensures StandsAt(s, sub, i + 1) <==> StandsAt(s[1..], sub, i)
  {
    if i + 1 + |sub| <= |s| {
      assert s[i + 1..i + 1 + |sub|] == s[1..][i..i + |sub|];
    }
  }

  lemma MentionsFromHere(s: string, sub: string)
    requires s != ""
    ensures Mentions(s, sub) <==> StandsAt(s, sub, 0) || Mentions(s[1..], sub)
  {
    if i: nat :| StandsAt(s, sub, i) {
      if i > 0 {
        StandsLater(s, sub, i - 1);
      }
    }
    if i: nat :| StandsAt(s[1..], sub, i) {
      StandsLater(s, sub, i);
    }
  }

  /** The search finds a text wherever it stands, and only if it does. */
  lemma {:induction false} ContainsFinds(s: string, sub: string)
    ensures Contains(s, sub) <==> Mentions(s, sub)
  {
    if s != "" {
      MentionsFromHere(s, sub);
      ContainsFinds(s[1..], sub);
      assert StandsAt(s, sub, 0) <==> sub <= s;
    } else if sub <= s {
      assert StandsAt(s, sub, 0);
    }
  }

  /** Dictionary order. */
  predicate LexLeq(a: string, b: string) {
    a == "" || (b != "" && (a[0] < b[0] || (a[0] == b[0] && LexLeq(a[1..], b[1..]))))
  }

  lemma {:induction false} LexTotal(a: string, b: string)
    ensures LexLeq(a, b) || LexLeq(b, a)
  {
    if a != "" && b != "" {
      LexTotal(a[1..], b[1..]);
    }
  }

  lemma {:induction false} LexTransitive(a: string, b: string, c: string)
    requires LexLeq(a, b) && LexLeq(b, c)
    ensures LexLeq(a, c)
  {
    if a != "" && a[0] == b[0] == c[0] {
      LexTransitive(a[1..], b[1..], c[1..]);
    }
  }

  lemma {:induction false} LexAntisymmetric(a: string, b: string)
    requires LexLeq(a, b) && LexLeq(b, a)
    ensures a == b
  {
    if a != "" {
      LexAntisymmetric(a[1..], b[1..]);
      assert a == [a[0]] + a[1..] && b == [b[0]] + b[1..];
    }
  }
}
