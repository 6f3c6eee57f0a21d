/**
 * Text that is kept: what is visible of one text stands, in order, within another. A text may be trimmed,
 * collapsed, escaped, wrapped or put on other lines and still be kept; html-markdown.ts does all of that to the
 * text of a page, and nothing of it may be lost on the way to the output. Subsequences are given by positions;
 * the lemmas use the same by recursion.
 */
module TextKept {
  import opened Utf16

  /** The units of `p` stand in `s` at the increasing positions `e`. */
  predicate Embeds(e: seq<nat>, p: Text, s: Text) {
    && |e| == |p|
    && (forall i :: 0 <= i < |p| ==> e[i] < |s| && p[i] == s[e[i]])
    && (forall i, j :: 0 <= i < j < |p| ==> e[i] < e[j])
  }

  /** `p` is a subsequence of `s`. */
  ghost predicate Sub(p: Text, s: Text) { exists e: seq<nat> :: Embeds(e, p, s) }

  lemma {:induction false} FromSub(p: Text, s: Text, e: seq<nat>)
    requires Embeds(e, p, s)
    ensures Follows(p, s)
    decreases |s|
  {
    if p != [] {
      var n := |p| - 1;
      if e[n] == |s| - 1 {
        FromSub(p[..n], s[..|s| - 1], e[..n]);
      } else {
        FromSub(p, s[..|s| - 1], e);
      }
    }
  }

  lemma {:induction false} ToSub(p: Text, s: Text) returns (e: seq<nat>)
    requires Follows(p, s)
    ensures Embeds(e, p, s)
    decreases |s|
  {
    if p == [] {
      e := [];
    } else if p[|p| - 1] == s[|s| - 1] && Follows(p[..|p| - 1], s[..|s| - 1]) {
      e := ToSub(p[..|p| - 1], s[..|s| - 1]);
      e := e + [|s| - 1];
    } else {
      e := ToSub(p, s[..|s| - 1]);
    }
  }

  lemma SubIs(p: Text, s: Text)
    ensures Sub(p, s) <==> Follows(p, s)
  {
    if Sub(p, s) {
      var e :| Embeds(e, p, s);
      FromSub(p, s, e);
    }
    if Follows(p, s) {
      var e := ToSub(p, s);
    }
  }

  /** The same by recursion, from the end. */
  predicate Follows(p: Text, s: Text)
    decreases |s|
  {
    || p == []
    || (&& s != []
        && (|| (p[|p| - 1] == s[|s| - 1] && Follows(p[..|p| - 1], s[..|s| - 1]))
            || Follows(p, s[..|s| - 1])))
  }

  lemma {:induction false} FollowsJoin(p: Text, s: Text, q: Text, t: Text)
    requires Follows(p, s) && Follows(q, t)
    ensures Follows(p + q, s + t)
    decreases |t|
  {
    if t == [] {
      assert p + q == p && s + t == s;
    } else {
      assert (s + t)[..|s + t| - 1] == s + t[..|t| - 1];
      if q != [] && q[|q| - 1] == t[|t| - 1] && Follows(q[..|q| - 1], t[..|t| - 1]) {
        assert (p + q)[..|p + q| - 1] == p + q[..|q| - 1];
        FollowsJoin(p, s, q[..|q| - 1], t[..|t| - 1]);
      } else {
        FollowsJoin(p, s, q, t[..|t| - 1]);
      }
    }
  }

  lemma FollowsBefore(p: Text, s: Text, t: Text)
    requires Follows(p, s)
    ensures Follows(p, s + t)
  {
    FollowsJoin(p, s, [], t);
    assert p + [] == p;
  }

  lemma FollowsAfter(p: Text, s: Text, t: Text)
    requires Follows(p, t)
    ensures Follows(p, s + t)
  {
    FollowsJoin([], s, p, t);
    assert [] + p == p;
  }

  lemma {:induction false} FollowsSelf(s: Text)
    ensures Follows(s, s)
    decreases |s|
  {
    if s != [] { FollowsSelf(s[..|s| - 1]); }
  }

  /** A subsequence of two texts in a row is one of each in a row. */
  lemma {:induction false} FollowsSplit(p: Text, s: Text, t: Text) returns (a: Text, b: Text)
    requires Follows(p, s + t)
    ensures p == a + b && Follows(a, s) && Follows(b, t)
    decreases |t|
  {
    if t == [] || p == [] {
      assert s + t == s || p == [];
      a, b := p, [];
    } else {
      var last := |s + t| - 1;
      assert (s + t)[..last] == s + t[..|t| - 1] && (s + t)[last] == t[|t| - 1];
      if p[|p| - 1] == t[|t| - 1] && Follows(p[..|p| - 1], (s + t)[..last]) {
        var c;
        a, c := FollowsSplit(p[..|p| - 1], s, t[..|t| - 1]);
        b := c + [p[|p| - 1]];
        assert b[..|b| - 1] == c;
        assert p == p[..|p| - 1] + [p[|p| - 1]];
      } else {
        a, b := FollowsSplit(p, s, t[..|t| - 1]);
      }
    }
  }

  lemma {:induction false} FollowsTrans(p: Text, q: Text, s: Text)
    requires Follows(p, q) && Follows(q, s)
    ensures Follows(p, s)
    decreases |s|
  {
    if p != [] && q != [] {
      var q', s' := q[..|q| - 1], s[..|s| - 1];
      if q[|q| - 1] == s[|s| - 1] && Follows(q', s') {
        if p[|p| - 1] == q[|q| - 1] && Follows(p[..|p| - 1], q') {
          FollowsTrans(p[..|p| - 1], q', s');
        } else {
          FollowsTrans(p, q', s');
        }
      } else {
        FollowsTrans(p, q, s');
      }
    }
  }

  /** A text without its whitespace. */
  function Visible(s: Text): Text {
    if s == [] then [] else Visible(s[..|s| - 1]) + if IsSpace(s[|s| - 1]) then [] else [s[|s| - 1]]
  }

  lemma {:induction false} VisibleJoin(a: Text, b: Text)
    ensures Visible(a + b) == Visible(a) + Visible(b)
    decreases |b|
  {
    if b == [] {
      assert a + b == a;
    } else {
      assert (a + b)[..|a + b| - 1] == a + b[..|b| - 1];
      VisibleJoin(a, b[..|b| - 1]);
    }
  }

  predicate NoSpace(p: Text) { forall i :: 0 <= i < |p| ==> !IsSpace(p[i]) }

  lemma {:induction false} VisibleHasNoSpace(s: Text)
    ensures NoSpace(Visible(s))
    decreases |s|
  {
    if s != [] { VisibleHasNoSpace(s[..|s| - 1]); }
  }

  lemma {:induction false} FollowsVisible(p: Text, s: Text)
    requires NoSpace(p) && Follows(p, s)
    ensures Follows(p, Visible(s))
    decreases |s|
  {
    if p != [] {
      var s' := s[..|s| - 1];
      if p[|p| - 1] == s[|s| - 1] && Follows(p[..|p| - 1], s') {
        FollowsVisible(p[..|p| - 1], s');
        var v := Visible(s') + [s[|s| - 1]];
        assert v[..|v| - 1] == Visible(s');
      } else {
        FollowsVisible(p, s');
        FollowsBefore(p, Visible(s'), if IsSpace(s[|s| - 1]) then [] else [s[|s| - 1]]);
      }
    }
  }

  /** All that is visible of `a` is in `b`, in order. */
  ghost predicate Covers(a: Text, b: Text) { Sub(Visible(a), b) }

  lemma CoversSelf(a: Text)
    ensures Covers(a, a)
  {
    VisibleInside(a);
    SubIs(Visible(a), a);
  }

  lemma {:induction false} VisibleInside(a: Text)
    ensures Follows(Visible(a), a)
    decreases |a|
  {
    if a != [] {
      var rest, last := a[..|a| - 1], a[|a| - 1];
      VisibleInside(rest);
      FollowsSelf([last]);
      FollowsJoin(Visible(rest), rest, if IsSpace(last) then [] else [last], [last]);
      assert a == rest + [last];
    }
  }

  lemma CoversTrans(a: Text, b: Text, c: Text)
    requires Covers(a, b) && Covers(b, c)
    ensures Covers(a, c)
  {
    SubIs(Visible(a), b);
    SubIs(Visible(b), c);
    SubIs(Visible(a), c);
    VisibleHasNoSpace(a);
    FollowsVisible(Visible(a), b);
    FollowsTrans(Visible(a), Visible(b), c);
  }

  lemma CoversJoin(a: Text, b: Text, c: Text, d: Text)
    requires Covers(a, b) && Covers(c, d)
    ensures Covers(a + c, b + d)
  {
    SubIs(Visible(a), b);
    SubIs(Visible(c), d);
    SubIs(Visible(a + c), b + d);
    VisibleJoin(a, c);
    FollowsJoin(Visible(a), b, Visible(c), d);
  }

  lemma CoversWrapped(a: Text, before: Text, b: Text, after: Text)
    requires Covers(a, b)
    ensures Covers(a, before + b + after)
  {
    SubIs(Visible(a), b);
    SubIs(Visible(a), before + b + after);
    FollowsAfter(Visible(a), before, b);
    FollowsBefore(Visible(a), before + b, after);
  }

  /** What follows a text may be put in another form that covers it. */
  lemma SwapKeeps(p: Text, base: Text, taken: Text, put: Text)
    requires NoSpace(p) && Sub(p, base + taken) && Covers(taken, put)
    ensures Sub(p, base + put)
  {
    SubIs(p, base + taken);
    SubIs(p, base + put);
    SubIs(Visible(taken), put);
    var a, b := FollowsSplit(p, base, taken);
    assert forall i :: 0 <= i < |b| ==> b[i] == p[|a| + i];
    FollowsVisible(b, taken);
    FollowsTrans(b, Visible(taken), put);
    FollowsJoin(a, base, b, put);
  }

  lemma AppendKeeps(p: Text, base: Text, text: Text, put: Text)
    requires NoSpace(p) && Sub(p, base) && Covers(text, put)
    ensures NoSpace(p + Visible(text)) && Sub(p + Visible(text), base + put)
  {
    SubIs(p, base);
    SubIs(p + Visible(text), base + put);
    SubIs(Visible(text), put);
    VisibleHasNoSpace(text);
    FollowsJoin(p, base, Visible(text), put);
  }

  lemma MoreKeeps(p: Text, base: Text, put: Text)
    requires Sub(p, base)
    ensures Sub(p, base + put)
  {
    SubIs(p, base);
    SubIs(p, base + put);
    FollowsBefore(p, base, put);
  }

  /** Trimming the whole loses nothing visible. */
  lemma TrimKeeps(p: Text, s: Text)
    requires NoSpace(p) && Sub(p, s)
    ensures Sub(p, Trim(s))
  {
    SubIs(p, s);
    SubIs(p, Trim(s));
    FollowsVisible(p, s);
    CoversTrim(s);
    SubIs(Visible(s), Trim(s));
    FollowsTrans(p, Visible(s), Trim(s));
  }

  lemma {:induction false} NothingVisible(s: Text)
    requires forall i :: 0 <= i < |s| ==> IsSpace(s[i])
    ensures Visible(s) == []
    decreases |s|
  {
    if s != [] { NothingVisible(s[..|s| - 1]); }
  }

  lemma CoversNothing(a: Text, b: Text)
    requires forall i :: 0 <= i < |a| ==> IsSpace(a[i])
    ensures Covers(a, b)
  {
    NothingVisible(a);
    assert Embeds([], Visible(a), b);
  }

  lemma CoversTrimStart(s: Text)
    ensures Covers(s, TrimStart(s))
  {
    var t := TrimStart(s);
    var spaces := s[..|s| - |t|];
    assert s == spaces + t;
    VisibleJoin(spaces, t);
    NothingVisible(spaces);
    CoversSelf(t);
    assert [] + Visible(t) == Visible(t);
  }

  lemma CoversTrimEnd(s: Text)
    ensures Covers(s, TrimEnd(s))
  {
    var t := TrimEnd(s);
    var spaces := s[|t|..];
    assert s == t + spaces;
    VisibleJoin(t, spaces);
    NothingVisible(spaces);
    CoversSelf(t);
    assert Visible(t) + [] == Visible(t);
  }

  lemma CoversTrim(s: Text)
    ensures Covers(s, Trim(s))
  {
    CoversTrimEnd(s);
    CoversTrimStart(TrimEnd(s));
    CoversTrans(s, TrimEnd(s), Trim(s));
  }
}
