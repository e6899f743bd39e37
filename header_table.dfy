/** The client's extra request headers, a `TreeMap<String, String>`
    (AbstractHttpClient.java:40), held as an association list in strictly
    ascending key order, which is how a TreeMap presents its entries; and the
    request properties of a connection, which a later `setRequestProperty`
    for the same name replaces. */
module HeaderTable {
  import opened JavaLang

  type Header = (string, string)

  /** Keys strictly ascending in `String.compareTo` order. */
  ghost predicate StrictlySorted(l: seq<Header>)
  {
    forall i, j :: 0 <= i < j < |l| ==> Less(l[i].0, l[j].0)
  }

  /** The name-to-value map of a list of (name, value) settings applied in
      order: a later setting of a name replaces an earlier one. */
  function AsMap(l: seq<Header>): map<string, string>
  {
    if l == [] then map[] else map[l[0].0 := l[0].1] + AsMap(l[1..])
  }

  /** The names a list sets. */
  lemma {:induction false} AsMapKeys(l: seq<Header>)
    ensures forall k :: k in AsMap(l) <==> exists i :: 0 <= i < |l| && l[i].0 == k
  {
    if l != [] {
      AsMapKeys(l[1..]);
      forall k | k in AsMap(l) ensures exists i :: 0 <= i < |l| && l[i].0 == k {
        if k != l[0].0 {
          assert k in AsMap(l[1..]);
          var i :| 0 <= i < |l[1..]| && l[1..][i].0 == k;
          assert l[i + 1].0 == k;
        }
      }
      forall k | exists i :: 0 <= i < |l| && l[i].0 == k ensures k in AsMap(l) {
        var i :| 0 <= i < |l| && l[i].0 == k;
        if i > 0 { assert l[1..][i - 1].0 == k; }
      }
    }
  }

  /** Applying two batches of settings is applying the first, then letting
      the second override it. */
  lemma {:induction false} AsMapConcat(a: seq<Header>, b: seq<Header>)
    ensures AsMap(a + b) == AsMap(a) + AsMap(b)
  {
    if a != [] {
      assert (a + b)[1..] == a[1..] + b;
      AsMapConcat(a[1..], b);
    } else {
      assert a + b == b;
    }
  }

  /** Every name the list sets comes after `k`. */
  ghost predicate AllAbove(l: seq<Header>, k: string)
  {
    forall i :: 0 <= i < |l| ==> Less(k, l[i].0)
  }

  lemma AllAboveNotIn(l: seq<Header>, k: string)
    requires AllAbove(l, k)
    ensures k !in AsMap(l)
  {
    AsMapKeys(l);
    forall i | 0 <= i < |l| ensures l[i].0 != k {
      LessImpliesDifferent(k, l[i].0);
    }
  }

  lemma SortedSplit(l: seq<Header>)
    requires StrictlySorted(l) && l != []
    ensures StrictlySorted(l[1..]) && AllAbove(l[1..], l[0].0)
  {
    forall i | 0 <= i < |l[1..]| ensures Less(l[0].0, l[1..][i].0) {
      assert l[1..][i] == l[i + 1];
    }
  }

  lemma SortedCons(h: Header, l: seq<Header>)
    requires StrictlySorted(l) && AllAbove(l, h.0)
    ensures StrictlySorted([h] + l)
  {
    forall i, j | 0 <= i < j < |l| + 1 ensures Less(([h] + l)[i].0, ([h] + l)[j].0) {
      if i > 0 { assert ([h] + l)[i] == l[i - 1]; }
      assert ([h] + l)[j] == l[j - 1];
    }
  }

  lemma AllAboveByMap(l: seq<Header>, k: string)
    requires forall key :: key in AsMap(l) ==> Less(k, key)
    ensures AllAbove(l, k)
  {
    AsMapKeys(l);
    forall i | 0 <= i < |l| ensures Less(k, l[i].0) {
      assert l[i].0 in AsMap(l);
    }
  }

  /** In a sorted list every entry is the map's value for its name, and the
      names are pairwise distinct: each stored header appears exactly once. */
  lemma {:induction false} SortedEntriesAreTheMap(l: seq<Header>)
    requires StrictlySorted(l)
    ensures forall i :: 0 <= i < |l| ==> l[i].0 in AsMap(l) && AsMap(l)[l[i].0] == l[i].1
    ensures forall i, j :: 0 <= i < j < |l| ==> l[i].0 != l[j].0
    ensures forall k :: k in AsMap(l) ==> exists i :: 0 <= i < |l| && l[i].0 == k
  {
    AsMapKeys(l);
    forall i, j | 0 <= i < j < |l| ensures l[i].0 != l[j].0 {
      LessImpliesDifferent(l[i].0, l[j].0);
    }
    if l != [] {
      SortedSplit(l);
      SortedEntriesAreTheMap(l[1..]);
      AllAboveNotIn(l[1..], l[0].0);
      forall i | 0 <= i < |l| ensures l[i].0 in AsMap(l) && AsMap(l)[l[i].0] == l[i].1 {
        if i > 0 {
          assert l[1..][i - 1] == l[i];
        }
      }
    }
  }

  /** `TreeMap.put(name, value)`: insert at the key's place, or overwrite. */
  function Put(l: seq<Header>, name: string, value: string): seq<Header>
  {
    if l == [] then [(name, value)]
    else if l[0].0 == name then [(name, value)] + l[1..]
    else if Less(name, l[0].0) then [(name, value)] + l
    else [l[0]] + Put(l[1..], name, value)
  }

  lemma PutOverwrite(l: seq<Header>, name: string, value: string)
    requires StrictlySorted(l) && l != [] && l[0].0 == name
    ensures StrictlySorted(Put(l, name, value))
    ensures AsMap(Put(l, name, value)) == AsMap(l)[name := value]
  {
    SortedSplit(l);
    SortedCons((name, value), l[1..]);
    AllAboveNotIn(l[1..], name);
    assert AsMap(l) == map[name := l[0].1] + AsMap(l[1..]);
    assert Put(l, name, value) == [(name, value)] + l[1..];
    assert ([(name, value)] + l[1..])[1..] == l[1..];
  }

  lemma PutInFront(l: seq<Header>, name: string, value: string)
    requires StrictlySorted(l) && l != [] && Less(name, l[0].0)
    ensures StrictlySorted(Put(l, name, value))
    ensures AsMap(Put(l, name, value)) == AsMap(l)[name := value]
  {
    SortedSplit(l);
    forall i | 0 <= i < |l| ensures Less(name, l[i].0) {
      if i > 0 { LessTransitive(name, l[0].0, l[i].0); }
    }
    SortedCons((name, value), l);
    AllAboveNotIn(l, name);
    LessImpliesDifferent(name, l[0].0);
    assert Put(l, name, value) == [(name, value)] + l;
    assert ([(name, value)] + l)[1..] == l;
  }

  /** `put` keeps the table sorted, and afterwards the table maps `name` to
      `value` and every other name as before. */
  lemma {:induction false} PutCorrect(l: seq<Header>, name: string, value: string)
    requires StrictlySorted(l)
    ensures StrictlySorted(Put(l, name, value))
    ensures AsMap(Put(l, name, value)) == AsMap(l)[name := value]
  {
    if l == [] {
    } else if l[0].0 == name {
      PutOverwrite(l, name, value);
    } else if Less(name, l[0].0) {
      PutInFront(l, name, value);
    } else {
      LessTotal(name, l[0].0);
      SortedSplit(l);
      PutCorrect(l[1..], name, value);
      PutAfterHead(l, name, value);
    }
  }

  lemma PutAfterHead(l: seq<Header>, name: string, value: string)
    requires StrictlySorted(l) && l != [] && Less(l[0].0, name)
    requires StrictlySorted(Put(l[1..], name, value))
    requires AsMap(Put(l[1..], name, value)) == AsMap(l[1..])[name := value]
    ensures StrictlySorted(Put(l, name, value))
    ensures AsMap(Put(l, name, value)) == AsMap(l)[name := value]
  {
    LessImpliesDifferent(l[0].0, name);
    LessAsymmetric(l[0].0, name);
    var rest := Put(l[1..], name, value);
    assert Put(l, name, value) == [l[0]] + rest;
    PutAfterHeadSorted(l, name, rest);
    assert ([l[0]] + rest)[1..] == rest;
    assert AsMap([l[0]] + rest) == map[l[0].0 := l[0].1] + AsMap(rest);
    assert AsMap(l) == map[l[0].0 := l[0].1] + AsMap(l[1..]);
    UpdateBelowHead(l[0].0, l[0].1, AsMap(l[1..]), name, value);
  }

  /** Setting a name other than the head's commutes with the head. */
  lemma UpdateBelowHead(k: string, v: string, m: map<string, string>, name: string, value: string)
    requires k != name
    ensures map[k := v] + m[name := value] == (map[k := v] + m)[name := value]
  {
  }

  lemma PutAfterHeadSorted(l: seq<Header>, name: string, rest: seq<Header>)
    requires StrictlySorted(l) && l != [] && Less(l[0].0, name)
    requires StrictlySorted(rest)
    requires forall key :: key in AsMap(rest) ==> key == name || key in AsMap(l[1..])
    ensures StrictlySorted([l[0]] + rest)
  {
    SortedSplit(l);
    AsMapKeys(l[1..]);
    forall key | key in AsMap(rest) ensures Less(l[0].0, key) {
      if key != name {
        var i :| 0 <= i < |l[1..]| && l[1..][i].0 == key;
      }
    }
    AllAboveByMap(rest, l[0].0);
    SortedCons(l[0], rest);
  }

  /** A header name as `HttpURLConnection` compares it: ignoring case. */
  function FoldName(name: string): (f: string)
    ensures |f| == |name|
  {
    seq(|name|, i requires 0 <= i < |name| => FoldCase(name[i]))
  }

  /** Two names fold to the same key exactly when they are equal ignoring
      case. */
  lemma FoldNameMatches(a: string, b: string)
    ensures FoldName(a) == FoldName(b) <==> EqualsIgnoreCase(a, b)
  {
    if EqualsIgnoreCase(a, b) {
      assert forall i :: 0 <= i < |a| ==> FoldName(a)[i] == FoldName(b)[i];
    }
    if FoldName(a) == FoldName(b) {
      assert forall i :: 0 <= i < |a| ==> FoldCase(a[i]) == FoldName(a)[i] == FoldName(b)[i] == FoldCase(b[i]);
    }
  }

  /** The settings with their names folded. */
  function Folded(l: seq<Header>): (f: seq<Header>)
    ensures |f| == |l|
  {
    seq(|l|, i requires 0 <= i < |l| => (FoldName(l[i].0), l[i].1))
  }

  /** The request properties in force after a list of `setRequestProperty`
      calls, keyed by folded name: a call replaces every earlier one whose
      name equals it ignoring case. */
  function InForce(l: seq<Header>): map<string, string>
  {
    AsMap(Folded(l))
  }

  lemma InForceConcat(a: seq<Header>, b: seq<Header>)
    ensures InForce(a + b) == InForce(a) + InForce(b)
  {
    assert Folded(a + b) == Folded(a) + Folded(b);
    AsMapConcat(Folded(a), Folded(b));
  }

  /** A name is in force exactly when some call set a name equal to it
      ignoring case. */
  lemma InForceKeys(l: seq<Header>, name: string)
    ensures FoldName(name) in InForce(l) <==> exists i :: 0 <= i < |l| && EqualsIgnoreCase(l[i].0, name)
  {
    AsMapKeys(Folded(l));
    if FoldName(name) in InForce(l) {
      var i :| 0 <= i < |l| && Folded(l)[i].0 == FoldName(name);
      FoldNameMatches(l[i].0, name);
    }
    if exists i :: 0 <= i < |l| && EqualsIgnoreCase(l[i].0, name) {
      var i :| 0 <= i < |l| && EqualsIgnoreCase(l[i].0, name);
      FoldNameMatches(l[i].0, name);
      assert Folded(l)[i].0 == FoldName(name);
    }
  }

  /** The last setting of a name is the one in force. */
  lemma {:induction false} AsMapLastWins(l: seq<Header>, i: nat)
    requires i < |l|
    requires forall j :: i < j < |l| ==> l[j].0 != l[i].0
    ensures l[i].0 in AsMap(l) && AsMap(l)[l[i].0] == l[i].1
  {
    if i == 0 {
      AsMapKeys(l[1..]);
      forall j | 0 <= j < |l[1..]| ensures l[1..][j].0 != l[0].0 {
        assert l[1..][j] == l[j + 1];
      }
    } else {
      forall j | i - 1 < j < |l[1..]| ensures l[1..][j].0 != l[1..][i - 1].0 {
        assert l[1..][j] == l[j + 1];
      }
      AsMapLastWins(l[1..], i - 1);
    }
  }

  /** The request properties after the client's headers are applied on top
      of earlier settings (AbstractHttpClient.java:323-331): a header that no
      later header matches ignoring case is in force with its value,
      replacing any earlier setting of a name equal to it ignoring case; every
      name that no header matches keeps its earlier value, or stays unset. */
  lemma AppliedHeadersWin(before: seq<Header>, headers: seq<Header>)
    ensures forall i :: 0 <= i < |headers| && (forall j :: i < j < |headers| ==> !EqualsIgnoreCase(headers[j].0, headers[i].0)) ==>
              FoldName(headers[i].0) in InForce(before + headers) &&
              InForce(before + headers)[FoldName(headers[i].0)] == headers[i].1
    ensures forall name :: (forall i :: 0 <= i < |headers| ==> !EqualsIgnoreCase(headers[i].0, name)) ==>
              (FoldName(name) in InForce(before + headers) <==> FoldName(name) in InForce(before)) &&
              (FoldName(name) in InForce(before) ==> InForce(before + headers)[FoldName(name)] == InForce(before)[FoldName(name)])
  {
    InForceConcat(before, headers);
    forall i | 0 <= i < |headers| && (forall j :: i < j < |headers| ==> !EqualsIgnoreCase(headers[j].0, headers[i].0))
      ensures FoldName(headers[i].0) in InForce(headers) && InForce(headers)[FoldName(headers[i].0)] == headers[i].1
    {
      forall j | i < j < |headers| ensures Folded(headers)[j].0 != Folded(headers)[i].0 {
        FoldNameMatches(headers[j].0, headers[i].0);
      }
      AsMapLastWins(Folded(headers), i);
    }
    forall name | (forall i :: 0 <= i < |headers| ==> !EqualsIgnoreCase(headers[i].0, name))
      ensures FoldName(name) !in InForce(headers)
    {
      InForceKeys(headers, name);
    }
  }
}
