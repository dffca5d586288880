/**
 * Menu labels of the Schematyc node-creation menu.  A fullName such as
 * `Type::Array::ForEach` is a category path followed by a node name, joined
 * with the separator `::`.  `Split` is QString::split("::") with empty parts
 * kept: it scans left to right and never lets two matches overlap.
 */
module MenuLabels {

  const Separator: string := "::"

  /** True when `s` holds no occurrence of the separator. */
  predicate NoSeparator(s: string)
  {
    forall i :: 0 <= i < |s| - 1 ==> !(s[i] == ':' && s[i + 1] == ':')
  }

  predicate EndsWithColon(s: string)
  {
    |s| > 0 && s[|s| - 1] == ':'
  }

  /** QString::split("::", KeepEmptyParts). */
  function Split(s: string): (parts: seq<string>)
    ensures |parts| >= 1
    decreases |s|
  {
    if |s| < 2 then [s]
    else if s[0] == ':' && s[1] == ':' then [""] + Split(s[2..])
    else
      var rest := Split(s[1..]);
      [[s[0]] + rest[0]] + rest[1..]
  }

  /** The inverse of Split: the parts joined with the separator. */
  function Join(parts: seq<string>): string
    requires |parts| >= 1
  {
    if |parts| == 1 then parts[0] else parts[0] + Separator + Join(parts[1..])
  }

  /** A sequence of parts that Split gives back unchanged once joined. */
  predicate SplitShape(parts: seq<string>)
  {
    && |parts| >= 1
    && (forall i :: 0 <= i < |parts| ==> NoSeparator(parts[i]))
    && (forall i :: 0 <= i < |parts| - 1 ==> !EndsWithColon(parts[i]))
  }

  /** The category path of a fullName: every part but the last. */
  function LabelPath(fullName: string): seq<string>
  {
    var parts := Split(fullName);
    parts[..|parts| - 1]
  }

  /** The node name of a fullName: its last part. */
  function LabelName(fullName: string): string
  {
    var parts := Split(fullName);
    parts[|parts| - 1]
  }

  /** Joining the parts of a fullName gives the fullName back. */
  lemma {:induction false} JoinSplit(s: string)
    ensures Join(Split(s)) == s
    decreases |s|
  {
    if |s| < 2 {
    } else if s[0] == ':' && s[1] == ':' {
      var t := s[2..];
      JoinSplit(t);
      SplitSep(t);
      assert s == Separator + t;
      JoinCons("", Split(t));
    } else {
      var r := s[1..];
      JoinSplit(r);
      SplitCons(s[0], r);
      JoinHead(s[0], Split(r));
      assert s == [s[0]] + r;
    }
  }

  /** A string that opens with the separator splits into an empty part and the rest. */
  lemma SplitSep(t: string)
    ensures Split(Separator + t) == [""] + Split(t)
  {
    assert (Separator + t)[2..] == t;
  }

  lemma JoinCons(p: string, ps: seq<string>)
    requires |ps| >= 1
    ensures Join([p] + ps) == p + Separator + Join(ps)
  {
    assert ([p] + ps)[1..] == ps;
  }

  /** Extending the first part by one character extends the joined string by it. */
  lemma JoinHead(c: char, parts: seq<string>)
    requires |parts| >= 1
    ensures Join([[c] + parts[0]] + parts[1..]) == [c] + Join(parts)
  {
    if |parts| > 1 {
      JoinCons([c] + parts[0], parts[1..]);
      PrependAssoc(c, parts[0], Separator, Join(parts[1..]));
    }
  }

  lemma PrependAssoc<T>(x: T, a: seq<T>, b: seq<T>, c: seq<T>)
    ensures [x] + a + b + c == [x] + (a + b + c)
  {
  }

  /** No part of a split holds the separator, and only the last part may end with a colon. */
  lemma {:induction false} SplitHasShape(s: string)
    ensures SplitShape(Split(s))
    decreases |s|
  {
    if |s| < 2 {
    } else if s[0] == ':' && s[1] == ':' {
      SplitHasShape(s[2..]);
      SplitSep(s[2..]);
      assert s == Separator + s[2..];
      ShapeCons("", Split(s[2..]));
    } else {
      var r := s[1..];
      SplitHasShape(r);
      var rest := Split(r);
      SplitCons(s[0], r);
      assert s == [s[0]] + r;
      var head := [s[0]] + rest[0];
      if |rest[0]| > 0 {
        SplitStartsWith(r);
        assert rest[0][0] == s[1];
      }
      NoSeparatorCons(s[0], rest[0]);
      if |rest| > 1 {
        // rest[0] was closed by a separator, so it cannot end with ':'; if it
        // is empty, s[0] is followed by the separator and is not a colon
        SplitCloses(r);
        ShapeTail(rest);
        assert !EndsWithColon(head) by {
          if |rest[0]| > 0 {
            assert head[|head| - 1] == rest[0][|rest[0]| - 1];
          }
        }
        ShapeCons(head, rest[1..]);
      }
    }
  }

  /** A part without the separator that does not end with a colon may open any split. */
  lemma ShapeCons(p: string, parts: seq<string>)
    requires NoSeparator(p) && !EndsWithColon(p) && SplitShape(parts)
    ensures SplitShape([p] + parts)
  {
    var all := [p] + parts;
    forall i | 0 <= i < |all| ensures NoSeparator(all[i]) {
      if i > 0 { assert all[i] == parts[i - 1]; }
    }
    forall i | 0 <= i < |all| - 1 ensures !EndsWithColon(all[i]) {
      if i > 0 { assert all[i] == parts[i - 1]; }
    }
  }

  /** Prefixing a character keeps a string free of the separator unless it forms one. */
  lemma NoSeparatorCons(c: char, p: string)
    requires NoSeparator(p) && !(|p| > 0 && c == ':' && p[0] == ':')
    ensures NoSeparator([c] + p)
  {
    var q := [c] + p;
    forall i | 0 <= i < |q| - 1 ensures !(q[i] == ':' && q[i + 1] == ':') {
      if i > 0 { assert q[i] == p[i - 1] && q[i + 1] == p[i]; }
    }
  }

  /** The first part of a split is a prefix of the string. */
  lemma {:induction false} SplitStartsWith(s: string)
    ensures |Split(s)[0]| <= |s| && Split(s)[0] == s[..|Split(s)[0]|]
    decreases |s|
  {
    if |s| < 2 {
    } else if s[0] == ':' && s[1] == ':' {
    } else {
      SplitStartsWith(s[1..]);
    }
  }

  /**
   * When a split has more than one part, the first part is followed by the
   * separator in `s`; the first part is therefore not a lone colon tail.
   */
  lemma {:induction false} SplitCloses(s: string)
    requires |Split(s)| > 1
    ensures |Split(s)[0]| + 2 <= |s|
    ensures s[|Split(s)[0]|] == ':' && s[|Split(s)[0]| + 1] == ':'
    ensures !EndsWithColon(Split(s)[0])
    decreases |s|
  {
    if |s| < 2 {
    } else if s[0] == ':' && s[1] == ':' {
    } else {
      SplitCloses(s[1..]);
      var rest := Split(s[1..]);
      SplitStartsWith(s[1..]);
      if |rest[0]| == 0 {
        // s[1..] starts with the separator, so s[0] is not ':' (else s would)
        assert s[1] == ':' && s[2] == ':';
      }
    }
  }

  /**
   * Splitting `q + "::" + t` splits `q` and `t` separately, as long as `q`
   * does not end with a colon (otherwise the separator would be found one
   * character early).
   */
  lemma {:induction false} SplitConcat(q: string, t: string)
    requires !EndsWithColon(q)
    ensures Split(q + Separator + t) == Split(q) + Split(t)
    decreases |q|
  {
    var s := q + Separator + t;
    if |q| == 0 {
      assert s == Separator + t;
      SplitSep(t);
    } else if |q| >= 2 && q[0] == ':' && q[1] == ':' {
      assert s[2..] == q[2..] + Separator + t;
      SplitConcat(q[2..], t);
      ConcatAssoc([""], Split(q[2..]), Split(t));
    } else {
      var r := q[1..] + Separator + t;
      assert s == [q[0]] + r;
      assert q == [q[0]] + q[1..];
      SplitConcat(q[1..], t);
      SplitCons(q[0], r);
      SplitCons(q[0], q[1..]);
      ReplaceHead([q[0]] + Split(q[1..])[0], Split(q[1..]), Split(t));
    }
  }

  lemma ConcatAssoc<T>(a: seq<T>, b: seq<T>, c: seq<T>)
    ensures a + (b + c) == a + b + c
  {
  }

  /** Replacing the head of `a + b` replaces the head of `a`. */
  lemma ReplaceHead<T>(h: T, a: seq<T>, b: seq<T>)
    requires |a| >= 1
    ensures (a + b)[0] == a[0]
    ensures [h] + (a + b)[1..] == [h] + a[1..] + b
  {
    assert (a + b)[1..] == a[1..] + b;
  }

  /** Splitting a string that does not open with the separator extends its first part. */
  lemma SplitCons(c: char, r: string)
    requires !(|r| > 0 && c == ':' && r[0] == ':')
    ensures Split([c] + r) == [[c] + Split(r)[0]] + Split(r)[1..]
  {
    if |r| > 0 {
      assert ([c] + r)[1..] == r;
    }
  }

  /** Split undoes Join for every sequence of parts of the right shape. */
  lemma {:induction false} SplitJoin(parts: seq<string>)
    requires SplitShape(parts)
    ensures Split(Join(parts)) == parts
    decreases |parts|
  {
    if |parts| == 1 {
      SplitOfPlain(parts[0]);
    } else {
      ShapeTail(parts);
      SplitJoin(parts[1..]);
      assert NoSeparator(parts[0]) && !EndsWithColon(parts[0]);
      SplitConcat(parts[0], Join(parts[1..]));
      SplitOfPlain(parts[0]);
      assert parts == [parts[0]] + parts[1..];
    }
  }

  lemma ShapeTail(parts: seq<string>)
    requires SplitShape(parts) && |parts| >= 2
    ensures SplitShape(parts[1..])
  {
    forall i | 0 <= i < |parts| - 1 ensures NoSeparator(parts[1..][i]) {
      assert parts[1..][i] == parts[i + 1];
    }
    forall i | 0 <= i < |parts[1..]| - 1 ensures !EndsWithColon(parts[1..][i]) {
      assert parts[1..][i] == parts[i + 1];
    }
  }

  /** A string without the separator splits into itself alone. */
  lemma {:induction false} SplitOfPlain(s: string)
    requires NoSeparator(s)
    ensures Split(s) == [s]
    decreases |s|
  {
    if |s| >= 2 {
      assert !(s[0] == ':' && s[1] == ':');
      assert NoSeparator(s[1..]) by {
        forall i | 0 <= i < |s[1..]| - 1 ensures !(s[1..][i] == ':' && s[1..][i + 1] == ':') {
          assert s[1..][i] == s[i + 1] && s[1..][i + 1] == s[i + 2];
        }
      }
      SplitOfPlain(s[1..]);
      assert [s[0]] + s[1..] == s;
    }
  }

  /**
   * A fullName without the separator has an empty category path and is its own
   * node name; in every case path and name join back to the fullName.
   */
  lemma LabelParts(fullName: string)
    ensures NoSeparator(fullName) ==> LabelPath(fullName) == [] && LabelName(fullName) == fullName
    ensures Join(LabelPath(fullName) + [LabelName(fullName)]) == fullName
    ensures NoSeparator(LabelName(fullName))
  {
    var parts := Split(fullName);
    assert LabelPath(fullName) + [LabelName(fullName)] == parts;
    JoinSplit(fullName);
    SplitHasShape(fullName);
    if NoSeparator(fullName) {
      SplitOfPlain(fullName);
    }
  }
}
