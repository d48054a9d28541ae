/**
 * The insertion-ordered dictionary the configuration document is built in
 * (Python's `collections.OrderedDict` with string keys). A dictionary is its
 * list of entries in first-insertion order; `d[k] = v` replaces the value of
 * an existing key in place and appends a new key at the end, and
 * `d.update(e)` performs `d[k] = v` for every entry of `e` in order.
 */
module OrderedDict {
  import opened Wrappers

  datatype ODict<V> = ODict(entries: seq<(string, V)>)

  function Empty<V>(): ODict<V> { ODict([]) }

  /** The keys of a list of entries, in order. */
  function KeysOf<V>(es: seq<(string, V)>): seq<string> {
    seq(|es|, i requires 0 <= i < |es| => es[i].0)
  }

  function Keys<V>(d: ODict<V>): seq<string> { KeysOf(d.entries) }

  predicate Distinct(ks: seq<string>) {
    forall i, j :: 0 <= i < j < |ks| ==> ks[i] != ks[j]
  }

  /** The value stored under `k` (`d.get(k)`): the first entry with that key. */
  function Find<V>(es: seq<(string, V)>, k: string): (r: Option<V>)
    ensures r.Some? <==> k in KeysOf(es)
  {
    if es == [] then
      assert KeysOf(es) == [];
      None
    else if es[0].0 == k then
      assert KeysOf(es)[0] == k;
      Some(es[0].1)
    else
      assert KeysOf(es) == [es[0].0] + KeysOf(es[1..]);
      Find(es[1..], k)
  }

  function Get<V>(d: ODict<V>, k: string): Option<V> { Find(d.entries, k) }

  /** The value of the last entry with key `k`: the one a sequence of writes leaves behind. */
  function LastValue<V>(es: seq<(string, V)>, k: string): (r: Option<V>)
    ensures r.Some? <==> k in KeysOf(es)
  {
    if es == [] then
      assert KeysOf(es) == [];
      None
    else if es[|es| - 1].0 == k then
      assert KeysOf(es)[|es| - 1] == k;
      Some(es[|es| - 1].1)
    else
      assert KeysOf(es) == KeysOf(es[..|es| - 1]) + [es[|es| - 1].0];
      LastValue(es[..|es| - 1], k)
  }

  /**
   * The key order that results from inserting the keys `more`, one after the
   * other, into a dictionary whose keys are `ks`: a key already present keeps
   * its position, a new one goes to the end.
   */
  function Appended(ks: seq<string>, more: seq<string>): seq<string> {
    if more == [] then ks
    else
      var before := Appended(ks, more[..|more| - 1]);
      var k := more[|more| - 1];
      if k in before then before else before + [k]
  }

  /** `d[k] = v` on the entry list. */
  function SetEntries<V>(es: seq<(string, V)>, k: string, v: V): (r: seq<(string, V)>)
    ensures KeysOf(r) == if k in KeysOf(es) then KeysOf(es) else KeysOf(es) + [k]
    ensures Find(r, k) == Some(v)
    ensures forall j :: j != k ==> Find(r, j) == Find(es, j)
  {
    if es == [] then
      assert KeysOf(es) == [];
      Cons((k, v), []);
      [(k, v)]
    else
      assert es == [es[0]] + es[1..];
      Cons(es[0], es[1..]);
      if es[0].0 == k then
        Cons((k, v), es[1..]);
        [(k, v)] + es[1..]
      else
        var rest := SetEntries(es[1..], k, v);
        Cons(es[0], rest);
        [es[0]] + rest
  }

  /** An entry in front: its key comes first, and it is what a lookup of that key finds. */
  lemma Cons<V>(e: (string, V), es: seq<(string, V)>)
    ensures KeysOf([e] + es) == [e.0] + KeysOf(es)
    ensures forall j :: Find([e] + es, j) == if e.0 == j then Some(e.1) else Find(es, j)
  {
    assert ([e] + es)[1..] == es;
  }

  function Set<V>(d: ODict<V>, k: string, v: V): ODict<V> {
    ODict(SetEntries(d.entries, k, v))
  }

  /** `d.update(e)` on the entry lists: every entry of `fs` written in order. */
  function UpdateEntries<V>(es: seq<(string, V)>, fs: seq<(string, V)>): seq<(string, V)> {
    if fs == [] then es
    else
      var last := fs[|fs| - 1];
      SetEntries(UpdateEntries(es, fs[..|fs| - 1]), last.0, last.1)
  }

  function Update<V>(d: ODict<V>, e: ODict<V>): ODict<V> {
    ODict(UpdateEntries(d.entries, e.entries))
  }

  /** Writing `e` into `d` leaves, under each key, the last value `e` wrote there, and otherwise what `d` had. */
  lemma {:induction false} UpdateFind<V>(es: seq<(string, V)>, fs: seq<(string, V)>, k: string)
    ensures Find(UpdateEntries(es, fs), k) == if k in KeysOf(fs) then LastValue(fs, k) else Find(es, k)
    decreases |fs|
  {
    if fs != [] {
      var init := fs[..|fs| - 1];
      assert KeysOf(fs) == KeysOf(init) + [fs[|fs| - 1].0];
      UpdateFind(es, init, k);
    }
  }

  /** The keys after `d.update(e)` are `d`'s keys followed by `e`'s new keys, each at its first insertion. */
  lemma {:induction false} UpdateKeys<V>(es: seq<(string, V)>, fs: seq<(string, V)>)
    ensures KeysOf(UpdateEntries(es, fs)) == Appended(KeysOf(es), KeysOf(fs))
    decreases |fs|
  {
    if fs != [] {
      var init := fs[..|fs| - 1];
      UpdateKeys(es, init);
      assert KeysOf(fs)[..|fs| - 1] == KeysOf(init);
    }
  }

  /** Inserting keys never moves the keys already there. */
  lemma {:induction false} AppendedExtends(ks: seq<string>, more: seq<string>)
    ensures |ks| <= |Appended(ks, more)| && Appended(ks, more)[..|ks|] == ks
    decreases |more|
  {
    if more != [] {
      AppendedExtends(ks, more[..|more| - 1]);
    }
  }

  /** A key is present afterwards exactly when it was present before or was inserted. */
  lemma {:induction false} AppendedMembers(ks: seq<string>, more: seq<string>, k: string)
    ensures k in Appended(ks, more) <==> k in ks || k in more
    decreases |more|
  {
    if more != [] {
      AppendedMembers(ks, more[..|more| - 1], k);
      assert more == more[..|more| - 1] + [more[|more| - 1]];
    }
  }

  /** Inserting never introduces a duplicate key. */
  lemma {:induction false} AppendedDistinct(ks: seq<string>, more: seq<string>)
    requires Distinct(ks)
    ensures Distinct(Appended(ks, more))
    decreases |more|
  {
    if more != [] {
      AppendedDistinct(ks, more[..|more| - 1]);
    }
  }

  /** Inserting `a` and then `b` gives the same order as inserting `a + b`. */
  lemma {:induction false} AppendedConcat(ks: seq<string>, a: seq<string>, b: seq<string>)
    ensures Appended(Appended(ks, a), b) == Appended(ks, a + b)
    decreases |b|
  {
    if b != [] {
      var ab := a + b;
      AppendedConcat(ks, a, b[..|b| - 1]);
      assert ab[..|ab| - 1] == a + b[..|b| - 1];
      assert ab[|ab| - 1] == b[|b| - 1];
      assert Appended(ks, ab) == var before := Appended(ks, ab[..|ab| - 1]);
        if b[|b| - 1] in before then before else before + [b[|b| - 1]];
    } else {
      assert a + b == a;
    }
  }

  /** When no key repeats, every inserted key simply goes to the end. */
  lemma {:induction false} AppendedFresh(ks: seq<string>, more: seq<string>)
    requires Distinct(ks + more)
    ensures Appended(ks, more) == ks + more
    decreases |more|
  {
    if more != [] {
      var init := more[..|more| - 1];
      assert ks + more == (ks + init) + [more[|more| - 1]];
      assert Distinct(ks + init) by {
        forall i, j | 0 <= i < j < |ks + init| ensures (ks + init)[i] != (ks + init)[j] {
          assert (ks + more)[i] == (ks + init)[i] && (ks + more)[j] == (ks + init)[j];
        }
      }
      AppendedFresh(ks, init);
      assert more[|more| - 1] !in ks + init by {
        forall i | 0 <= i < |ks + init| ensures (ks + init)[i] != more[|more| - 1] {
          assert (ks + more)[i] == (ks + init)[i];
          assert (ks + more)[|ks + more| - 1] == more[|more| - 1];
        }
      }
    }
  }

  /**
   * The document assembly: an empty dictionary updated with each part in turn
   * (`cfg = OrderedDict(); cfg.update(part)` for every part).
   */
  function Assemble<V>(parts: seq<ODict<V>>): ODict<V> {
    if parts == [] then Empty()
    else Update(Assemble(parts[..|parts| - 1]), parts[|parts| - 1])
  }

  /** The keys of all parts, concatenated in part order. */
  function AllKeys<V>(parts: seq<ODict<V>>): seq<string> {
    if parts == [] then [] else AllKeys(parts[..|parts| - 1]) + Keys(parts[|parts| - 1])
  }

  /** A key is among all parts' keys iff some part has it. */
  lemma {:induction false} AllKeysMembers<V>(parts: seq<ODict<V>>, k: string)
    ensures k in AllKeys(parts) <==> exists j :: 0 <= j < |parts| && k in Keys(parts[j])
    decreases |parts|
  {
    if parts != [] {
      var n := |parts| - 1;
      AllKeysMembers(parts[..n], k);
      assert AllKeys(parts) == AllKeys(parts[..n]) + Keys(parts[n]);
      if exists j :: 0 <= j < |parts| && k in Keys(parts[j]) {
        var j :| 0 <= j < |parts| && k in Keys(parts[j]);
        if j < n {
          assert parts[..n][j] == parts[j];
        }
      }
    }
  }

  /** The assembled document's keys: every part's keys in part order, each key at its first insertion. */
  lemma {:induction false} AssembleKeys<V>(parts: seq<ODict<V>>)
    ensures Keys(Assemble(parts)) == Appended([], AllKeys(parts))
    ensures Distinct(Keys(Assemble(parts)))
    decreases |parts|
  {
    if parts != [] {
      var init := parts[..|parts| - 1];
      var last := parts[|parts| - 1];
      AssembleKeys(init);
      UpdateKeys(Assemble(init).entries, last.entries);
      AppendedConcat([], AllKeys(init), Keys(last));
      AppendedDistinct([], AllKeys(parts));
    }
  }

  /** Earlier parts fix the leading keys of the document: later parts never reorder them. */
  lemma {:induction false} AssemblePrefix<V>(parts: seq<ODict<V>>, n: nat)
    requires n <= |parts|
    ensures |Keys(Assemble(parts[..n]))| <= |Keys(Assemble(parts))|
    ensures Keys(Assemble(parts))[..|Keys(Assemble(parts[..n]))|] == Keys(Assemble(parts[..n]))
  {
    AssembleKeys(parts);
    AssembleKeys(parts[..n]);
    AllKeysSplit(parts, n);
    AppendedConcat([], AllKeys(parts[..n]), AllKeys(parts[n..]));
    AppendedExtends(Appended([], AllKeys(parts[..n])), AllKeys(parts[n..]));
  }

  lemma {:induction false} AllKeysSplit<V>(parts: seq<ODict<V>>, n: nat)
    requires n <= |parts|
    ensures AllKeys(parts) == AllKeys(parts[..n]) + AllKeys(parts[n..])
    decreases |parts|
  {
    if n < |parts| {
      var init := parts[..|parts| - 1];
      AllKeysSplit(init, n);
      assert init[..n] == parts[..n];
      assert init[n..] == parts[n..][..|parts[n..]| - 1];
    } else {
      assert parts[..n] == parts;
    }
  }

  /** A key's value in the document is the one written by the last part that has the key. */
  lemma {:induction false} AssembleGet<V>(parts: seq<ODict<V>>, k: string, i: nat)
    requires i < |parts| && k in Keys(parts[i])
    requires forall j :: i < j < |parts| ==> k !in Keys(parts[j])
    ensures Get(Assemble(parts), k) == LastValue(parts[i].entries, k)
    decreases |parts|
  {
    var init := parts[..|parts| - 1];
    var last := parts[|parts| - 1];
    UpdateFind(Assemble(init).entries, last.entries, k);
    if i < |parts| - 1 {
      AssembleGet(init, k, i);
    }
  }

  /** A dictionary built by writing the entries `fs` in order into an empty one. */
  lemma FromEntries<V>(fs: seq<(string, V)>, k: string)
    ensures Keys(Update(Empty(), ODict(fs))) == Appended([], KeysOf(fs))
    ensures Distinct(Keys(Update(Empty(), ODict(fs))))
    ensures k in Keys(Update(Empty(), ODict(fs))) <==> k in KeysOf(fs)
    ensures Get(Update(Empty(), ODict(fs)), k) == LastValue(fs, k)
  {
    var es: seq<(string, V)> := [];
    UpdateKeys(es, fs);
    UpdateFind(es, fs, k);
    AppendedDistinct([], KeysOf(fs));
    AppendedMembers([], KeysOf(fs), k);
    assert KeysOf(es) == [];
  }

  /** The last entry with a key is the one whose value stays. */
  lemma {:induction false} LastValueAt<V>(fs: seq<(string, V)>, i: nat)
    requires i < |fs|
    requires forall j :: i < j < |fs| ==> fs[j].0 != fs[i].0
    ensures LastValue(fs, fs[i].0) == Some(fs[i].1)
    decreases |fs|
  {
    if i < |fs| - 1 {
      LastValueAt(fs[..|fs| - 1], i);
    }
  }

  /** One more entry puts its key last and is the last value for that key. */
  lemma EntriesSnoc<V>(es: seq<(string, V)>, k: string, v: V, j: string)
    ensures KeysOf(es + [(k, v)]) == KeysOf(es) + [k]
    ensures LastValue(es + [(k, v)], j) == if j == k then Some(v) else LastValue(es, j)
  {
    assert (es + [(k, v)])[..|es|] == es;
  }

  /** Writing one more entry is one more `d[k] = v` on the dictionary built so far. */
  lemma UpdateSnoc<V>(es: seq<(string, V)>, fs: seq<(string, V)>, k: string, v: V)
    ensures UpdateEntries(es, fs + [(k, v)]) == SetEntries(UpdateEntries(es, fs), k, v)
  {
    assert (fs + [(k, v)])[..|fs|] == fs;
  }
}
