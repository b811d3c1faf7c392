/**
  Topic names and wildcard patterns of include/ipc/transport.hpp: '/'-separated
  levels, '+' for exactly one level, '*' for all remaining ones.
*/
module Topics {
  import opened Options
  import opened Framing

  type Name = Bytes

  const SLASH: byte := 47
  const PLUS: byte := 43
  const STAR: byte := 42

  // ---- levels -----------------------------------------------------------------

  // Position of the first c at or after start, or |s|.
  function Find(s: Name, c: byte, start: nat): (i: nat)
    requires start <= |s|
    ensures start <= i <= |s|
    ensures forall j :: start <= j < i ==> s[j] != c
    ensures i < |s| ==> s[i] == c
    decreases |s| - start
  {
    if start == |s| || s[start] == c then start else Find(s, c, start + 1)
  }

  function Levels(s: Name): (ls: seq<Name>)
    ensures ls != []
    decreases |s|
  {
    var i := Find(s, SLASH, 0);
    if i == |s| then [s] else [s[..i]] + Levels(s[i + 1..])
  }

  function Join(ls: seq<Name>): Name
    requires ls != []
  {
    if |ls| == 1 then ls[0] else ls[0] + [SLASH] + Join(ls[1..])
  }

  predicate Slashless(ls: seq<Name>) {
    forall i :: 0 <= i < |ls| ==> SLASH !in ls[i]
  }

  // Splitting loses nothing: the levels joined again give the name, and they are
  // the only slash-free pieces that do.
  lemma {:induction false} LevelsJoin(s: Name)
    ensures Join(Levels(s)) == s && Slashless(Levels(s))
    decreases |s|
  {
    var i := Find(s, SLASH, 0);
    if i < |s| {
      LevelsJoin(s[i + 1..]);
      assert s == s[..i] + [SLASH] + s[i + 1..];
      assert Levels(s)[1..] == Levels(s[i + 1..]);
    }
  }

  lemma {:induction false} LevelsUnique(ls: seq<Name>)
    requires ls != [] && Slashless(ls)
    ensures Levels(Join(ls)) == ls
  {
    if |ls| == 1 {
      NoneFound(ls[0]);
    } else {
      LevelsUnique(ls[1..]);
      FirstLevel(ls[0], Join(ls[1..]));
      assert ls == [ls[0]] + ls[1..];
    }
  }

  lemma NoneFound(s: Name)
    requires SLASH !in s
    ensures Levels(s) == [s]
  {
    var i := Find(s, SLASH, 0);
    assert i == |s|;
  }

  lemma FirstLevel(head: Name, rest: Name)
    requires SLASH !in head
    ensures Levels(head + [SLASH] + rest) == [head] + Levels(rest)
  {
    var s := head + [SLASH] + rest;
    var i := Find(s, SLASH, 0);
    assert s[|head|] == SLASH && s[..|head|] == head && s[|head| + 1..] == rest;
    assert i == |head| by {
      assert forall j :: 0 <= j < |head| ==> s[j] == head[j];
    }
  }

  lemma LevelsInjective(a: Name, b: Name)
    requires Levels(a) == Levels(b)
    ensures a == b
  {
    LevelsJoin(a);
    LevelsJoin(b);
  }

  // topic_levels
  method TopicLevels(s: Name) returns (out: seq<Name>)
    ensures out == Levels(s)
  {
    out := [];
    var start: nat := 0;
    while true
      invariant start <= |s|
      invariant out + Levels(s[start..]) == Levels(s)
      decreases |s| - start
    {
      var sep := Find(s, SLASH, start);
      FindInSuffix(s, SLASH, start);
      if sep == |s| {
        out := out + [s[start..]];
        return;
      }
      NextLevel(s, start, sep);
      Regroup(out, [s[start..sep]], Levels(s[sep + 1..]));
      out := out + [s[start..sep]];
      start := sep + 1;
    }
  }

  lemma NextLevel(s: Name, start: nat, sep: nat)
    requires start <= sep < |s| && Find(s[start..], SLASH, 0) == sep - start
    ensures Levels(s[start..]) == [s[start..sep]] + Levels(s[sep + 1..])
  {
    assert s[start..][..sep - start] == s[start..sep];
    assert s[start..][sep - start + 1..] == s[sep + 1..];
  }

  lemma FindInSuffix(s: Name, c: byte, start: nat)
    requires start <= |s|
    ensures Find(s[start..], c, 0) == Find(s, c, start) - start
  {
    var i, j := Find(s, c, start), Find(s[start..], c, 0);
    assert forall m :: 0 <= m < |s| - start ==> s[start..][m] == s[start + m];
  }

  // ---- matching ---------------------------------------------------------------

  predicate HasWildcard(s: Name) {
    PLUS in s || STAR in s
  }

  // Pattern level p admits topic level t.
  predicate Admits(p: Name, t: Name) {
    p == [PLUS] || p == t
  }

  // The first n levels of the pattern are no '*' and admit those of the topic.
  predicate AdmitsFirst(p: seq<Name>, t: seq<Name>, n: nat) {
    n <= |p| && n <= |t| && forall i :: 0 <= i < n ==> p[i] != [STAR] && Admits(p[i], t[i])
  }

  // A pattern matches a topic level by level up to its first '*', which takes the
  // rest, or else up to the end of both.
  predicate Matches(pattern: Name, topic: Name) {
    LevelsMatch(Levels(pattern), Levels(topic))
  }

  predicate LevelsMatch(p: seq<Name>, t: seq<Name>) {
    || (|p| == |t| && AdmitsFirst(p, t, |p|))
    || exists n :: 0 <= n < |p| && p[n] == [STAR] && AdmitsFirst(p, t, n)
  }

  // topic_matches
  method TopicMatches(pattern: Name, topic: Name) returns (r: bool)
    ensures r == Matches(pattern, topic)
  {
    var p := TopicLevels(pattern);
    var t := TopicLevels(topic);
    var i := 0;
    while i < |p|
      invariant i <= |p| && AdmitsFirst(p, t, i)
    {
      if p[i] == [STAR] {
        return true;
      }
      if i >= |t| {
        return false;
      }
      if p[i] == [PLUS] {
        i := i + 1;
        continue;
      }
      if p[i] != t[i] {
        return false;
      }
      i := i + 1;
    }
    return i == |t|;
  }

  lemma MatchesOfJoins(p: seq<Name>, t: seq<Name>)
    requires p != [] && Slashless(p) && t != [] && Slashless(t)
    ensures Matches(Join(p), Join(t)) <==> LevelsMatch(p, t)
  {
    LevelsUnique(p);
    LevelsUnique(t);
  }

  // What the wildcards mean, for any mix of them: up to the first '*', or else up to the
  // end of both, each level of the pattern is '+' or the level of the topic.
  lemma MatchesIff(pattern: Name, topic: Name)
    ensures var p, t := Levels(pattern), Levels(topic);
            Matches(pattern, topic) <==>
              || (|p| == |t| && forall i :: 0 <= i < |p| ==> p[i] != [STAR] && (p[i] == [PLUS] || p[i] == t[i]))
              || exists n :: 0 <= n < |p| && n <= |t| && p[n] == [STAR] &&
                   forall i :: 0 <= i < n ==> p[i] != [STAR] && (p[i] == [PLUS] || p[i] == t[i])
  {
    LevelsMatchIff(Levels(pattern), Levels(topic));
  }

  lemma LevelsMatchIff(p: seq<Name>, t: seq<Name>)
    ensures LevelsMatch(p, t) <==>
      || (|p| == |t| && forall i :: 0 <= i < |p| ==> p[i] != [STAR] && (p[i] == [PLUS] || p[i] == t[i]))
      || exists n :: 0 <= n < |p| && n <= |t| && p[n] == [STAR] &&
           forall i :: 0 <= i < n ==> p[i] != [STAR] && (p[i] == [PLUS] || p[i] == t[i])
  {
  }

  // Levels without wildcards and slashes.
  predicate Plain(ls: seq<Name>) {
    Slashless(ls) && forall i :: 0 <= i < |ls| ==> ls[i] != [STAR] && ls[i] != [PLUS]
  }

  lemma PlusLevels(a: seq<Name>, b: seq<Name>, u: seq<Name>)
    requires Plain(a) && Plain(b)
    ensures LevelsMatch(a + [[PLUS]] + b, u) <==> |u| == |a| + 1 + |b| && u == a + [u[|a|]] + b
  {
    var p := a + [[PLUS]] + b;
    assert p[..|a|] == a && p[|a| + 1..] == b;
    NoStar(p, |a|);
    LevelsMatchIff(p, u);
    if |u| == |p| {
      assert u == u[..|a|] + [u[|a|]] + u[|a| + 1..];
      SameButOne(p, u, |a|);
    }
  }

  // Two lists of one length that agree but for one position, where p holds '+'.
  lemma SameButOne(p: seq<Name>, u: seq<Name>, k: nat)
    requires k < |p| == |u| && p[k] == [PLUS] && Plain(p[..k]) && Plain(p[k + 1..])
    ensures (forall i :: 0 <= i < |p| ==> p[i] == [PLUS] || p[i] == u[i]) <==> u[..k] == p[..k] && u[k + 1..] == p[k + 1..]
  {
    forall i | 0 <= i < |p| && i != k ensures p[i] != [PLUS] {
      assert p[i] == if i < k then p[..k][i] else p[k + 1..][i - k - 1];
    }
    if u[..k] == p[..k] && u[k + 1..] == p[k + 1..] {
      forall i | 0 <= i < |p| && i != k ensures p[i] == u[i] {
        assert p[i] == if i < k then p[..k][i] else p[k + 1..][i - k - 1];
      }
    }
  }

  // Plain levels but for one '+'.
  lemma NoStar(p: seq<Name>, k: nat)
    requires k < |p| && p[k] == [PLUS] && Plain(p[..k]) && Plain(p[k + 1..])
    ensures forall i :: 0 <= i < |p| ==> p[i] != [STAR]
  {
    forall i | 0 <= i < |p| ensures p[i] != [STAR] {
      if i < k {
        assert p[..k][i] == p[i];
      } else if i > k {
        assert p[k + 1..][i - k - 1] == p[i];
      }
    }
  }

  // '+' stands for exactly one level, whatever it is.
  lemma PlusIsAnyLevel(a: seq<Name>, b: seq<Name>, t: Name)
    requires Plain(a) && Plain(b)
    ensures Matches(Join(a + [[PLUS]] + b), t) <==> exists x :: SLASH !in x && t == Join(a + [x] + b)
  {
    var p, u := a + [[PLUS]] + b, Levels(t);
    LevelsJoin(t);
    MatchesOfJoins(p, u);
    PlusLevels(a, b, u);
    if Matches(Join(p), t) {
      assert SLASH !in u[|a|] && t == Join(a + [u[|a|]] + b);
    }
    if x :| SLASH !in x && t == Join(a + [x] + b) {
      SlashlessWith(a, x, b);
      LevelsUnique(a + [x] + b);
      assert u == a + [x] + b && u[|a|] == x;
    }
  }

  lemma SlashlessWith(a: seq<Name>, x: Name, b: seq<Name>)
    requires Slashless(a) && SLASH !in x && Slashless(b)
    ensures Slashless(a + [x] + b)
  {
  }

  lemma StarLevels(a: seq<Name>, u: seq<Name>)
    requires Plain(a)
    ensures LevelsMatch(a + [[STAR]], u) <==> a <= u
  {
    var p := a + [[STAR]];
    assert forall i :: 0 <= i < |a| ==> p[i] == a[i];
    assert p[|a|] == [STAR];
    if a <= u {
      assert AdmitsFirst(p, u, |a|);
    }
    if LevelsMatch(p, u) {
      assert AdmitsFirst(p, u, |a|);
      assert forall i :: 0 <= i < |a| ==> p[i] == u[i];
    }
  }

  // '*' stands for all the levels that are left, however many, and even none.
  lemma StarIsTheRest(a: seq<Name>, t: Name)
    requires Plain(a)
    ensures Matches(Join(a + [[STAR]]), t) <==>
            exists rest :: Slashless(rest) && a + rest != [] && t == Join(a + rest)
  {
    var p, u := a + [[STAR]], Levels(t);
    LevelsJoin(t);
    MatchesOfJoins(p, u);
    StarLevels(a, u);
    if a <= u {
      assert u == a + u[|a|..];
      assert Slashless(u[|a|..]) && t == Join(a + u[|a|..]);
    }
    if rest :| Slashless(rest) && a + rest != [] && t == Join(a + rest) {
      LevelsUnique(a + rest);
    }
  }

  // A name without wildcards matches itself and nothing else, so keeping exact
  // names and patterns in two indexes is the same as keeping all in one.
  lemma PlainMatchesOnlyItself(s: Name, topic: Name)
    requires !HasWildcard(s)
    ensures Matches(s, topic) <==> s == topic
  {
    var p, t := Levels(s), Levels(topic);
    forall i | 0 <= i < |p| ensures p[i] != [STAR] && p[i] != [PLUS] {
      LevelIsPart(s, i);
    }
    if Matches(s, topic) {
      assert p == t;
      LevelsInjective(s, topic);
    }
  }

  // Every character of a level is a character of the name.
  lemma {:induction false} LevelIsPart(s: Name, i: nat)
    requires i < |Levels(s)|
    ensures forall c :: c in Levels(s)[i] ==> c in s
    ensures !HasWildcard(s) ==> Levels(s)[i] != [STAR] && Levels(s)[i] != [PLUS]
    decreases |s|
  {
    var f := Find(s, SLASH, 0);
    if f < |s| && i > 0 {
      LevelIsPart(s[f + 1..], i - 1);
    }
    assert forall c :: c in Levels(s)[i] ==> c in s;
    if !HasWildcard(s) {
      assert STAR in [STAR] && PLUS in [PLUS];
    }
  }
}
