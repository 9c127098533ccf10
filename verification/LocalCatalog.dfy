/** Reading the local catalogue for the rows of a report: the paged, memoised reader gives the same answers
    as the plain row-by-row loop, asks for every identity once, and never shares a result dictionary. */
module LocalCatalog {
  import opened Prelude

  /** The SHA-256 digest of the normalised code and article of a row. */
  type Digest = Text

  datatype Row = Row(key: Text, digest: Digest)

  datatype Status = Waiting | Matched | NotFound | Ambiguous | Invalid | NotSynced

  datatype Product = Product(id: Text, synced: Text, attributes: Text)

  /** A lookup row with the product it points to, if that product exists. */
  datatype Record = Record(status: Status, product: Option<Product>)

  datatype Info = Info(status: Status, synced: Option<Text>, product: Option<Product>)

  type Catalog = map<Digest, Record>

  /** Attributes are shown for matched identities only; stored data of any other status is not used. */
  function Projection(r: Option<Record>): Info
  {
    if r.None? then Info(NotSynced, None, None) else
      var synced := if r.value.product.Some? then Some(r.value.product.value.synced) else None;
      if r.value.status != Matched || r.value.product.None? then Info(r.value.status, synced, None)
      else Info(Matched, synced, r.value.product)
  }

  function Found(db: Catalog, d: Digest): Option<Record>
  {
    if d in db then Some(db[d]) else None
  }

  /** What two projections are compared by. */
  function Pair(i: Info): (Status, Option<Text>)
  {
    (i.status, if i.product.Some? then Some(i.product.value.id) else None)
  }

  const CONFLICT := Info(Ambiguous, None, None)

  function Merged(previous: Option<Info>, info: Info): Info
  {
    if previous.Some? && Pair(previous.value) != Pair(info) then CONFLICT else info
  }

  function Lookup(m: map<Text, Info>, key: Text): Option<Info>
  {
    if key in m then Some(m[key]) else None
  }

  /** The plain loop: one row after the other. */
  function Naive(rows: seq<Row>, db: Catalog): map<Text, Info>
  {
    if rows == [] then map[] else
      var n := |rows| - 1;
      var result := Naive(rows[..n], db);
      result[rows[n].key := Merged(Lookup(result, rows[n].key), Projection(Found(db, rows[n].digest)))]
  }

  // ---------------------------------------------------------------- what a key gets

  predicate Agree(rows: seq<Row>, db: Catalog, key: Text, p: (Status, Option<Text>))
  {
    forall i :: 0 <= i < |rows| && rows[i].key == key ==> Pair(Projection(Found(db, rows[i].digest))) == p
  }

  predicate Mentions(rows: seq<Row>, key: Text)
  {
    exists i :: 0 <= i < |rows| && rows[i].key == key
  }

  /** The status and product of a key are those of all its rows, or ambiguous when they differ. */
  lemma {:induction false} CommonOrAmbiguous(rows: seq<Row>, db: Catalog, key: Text, p: (Status, Option<Text>))
    ensures key in Naive(rows, db) <==> Mentions(rows, key)
    ensures Mentions(rows, key) && Agree(rows, db, key, p) ==> Pair(Naive(rows, db)[key]) == p
    ensures key in Naive(rows, db) && !Agree(rows, db, key, Pair(Naive(rows, db)[key]))
            ==> Pair(Naive(rows, db)[key]) == (Ambiguous, None)
  {
    if rows != [] {
      var n := |rows| - 1;
      var front, last := rows[..n], rows[n];
      CommonOrAmbiguous(front, db, key, p);
      hide Projection, Found;
      assert Mentions(rows, key) <==> Mentions(front, key) || last.key == key by {
        if Mentions(front, key) {
          var i :| 0 <= i < |front| && front[i].key == key;
          assert rows[i].key == key;
        }
      }
      assert forall q :: Agree(rows, db, key, q) <==>
        Agree(front, db, key, q) && (last.key == key ==> Pair(Projection(Found(db, last.digest))) == q) by {
        assert rows == front + [last];
      }
    }
  }

  lemma SameRows(a: seq<Row>, b: seq<Row>)
    requires multiset(a) == multiset(b)
    ensures forall r :: r in a <==> r in b
  {
    forall r
      ensures r in a <==> r in b
    {
      assert r in multiset(a) <==> r in multiset(b);
    }
  }

  lemma AgreeToo(a: seq<Row>, b: seq<Row>, db: Catalog, key: Text, p: (Status, Option<Text>))
    requires Agree(a, db, key, p) && forall r :: r in b ==> r in a
    ensures Agree(b, db, key, p)
  {
    hide Projection, Found;
    forall i | 0 <= i < |b| && b[i].key == key
      ensures Pair(Projection(Found(db, b[i].digest))) == p
    {
      assert b[i] in a;
      var j :| 0 <= j < |a| && a[j] == b[i];
    }
  }

  /** The order of the rows does not matter for the status and the product of any key. */
  lemma OrderDoesNotMatter(a: seq<Row>, b: seq<Row>, db: Catalog, key: Text)
    requires multiset(a) == multiset(b)
    ensures key in Naive(a, db) <==> key in Naive(b, db)
    ensures key in Naive(a, db) ==> Pair(Naive(a, db)[key]) == Pair(Naive(b, db)[key])
  {
    SameRows(a, b);
    CommonOrAmbiguous(a, db, key, (Ambiguous, None));
    CommonOrAmbiguous(b, db, key, (Ambiguous, None));
    hide Naive, Projection, Found;
    assert Mentions(a, key) <==> Mentions(b, key) by {
      if Mentions(a, key) {
        var i :| 0 <= i < |a| && a[i].key == key;
        assert a[i] in b;
      }
      if Mentions(b, key) {
        var i :| 0 <= i < |b| && b[i].key == key;
        assert b[i] in a;
      }
    }
    if Mentions(a, key) {
      var pa, pb := Pair(Naive(a, db)[key]), Pair(Naive(b, db)[key]);
      CommonOrAmbiguous(a, db, key, pb);
      CommonOrAmbiguous(b, db, key, pa);
      if Agree(a, db, key, pa) {
        AgreeToo(a, b, db, key, pa);
      } else if Agree(b, db, key, pb) {
        AgreeToo(b, a, db, key, pb);
      }
    }
  }

  /** The loop the benchmark keeps: pages of rows, one query a page, a fresh projection for every row. */
  method Before(rows: seq<Row>, size: nat, db: Catalog) returns (result: map<Text, Info>)
    requires size > 0
    ensures result == Naive(rows, db)
  {
    result := map[];
    var start := 0;
    assert rows[..0] == [];
    while start < |rows|
      invariant 0 <= start <= |rows|
      invariant result == Naive(rows[..start], db)
    {
      var end := Min(start + size, |rows|);
      var mapped := Select(db, rows[start..end]);
      var i := start;
      while i < end
        invariant start <= i <= end
        invariant result == Naive(rows[..i], db)
      {
        var key := rows[i].key;
        assert rows[start..end][i - start] == rows[i];
        var info := Projection(Found(mapped, rows[i].digest));
        if key in result && Pair(result[key]) != Pair(info) {
          info := CONFLICT;
        }
        assert rows[..i + 1][..i] == rows[..i];
        result := result[key := info];
        i := i + 1;
      }
      start := end;
    }
    assert rows[..start] == rows;
  }

  /** The records of the identities of one page. */
  function Select(db: Catalog, page: seq<Row>): (mapped: Catalog)
    ensures forall i :: 0 <= i < |page| ==> Found(mapped, page[i].digest) == Found(db, page[i].digest)
  {
    map d | d in db && (exists i :: 0 <= i < |page| && page[i].digest == d) :: db[d]
  }

  // ---------------------------------------------------------------- the memoised reader

  /** A result dictionary. Its identity matters: callers extend the dictionaries they get. */
  class InfoDict {
    const info: Info

    constructor (i: Info)
      ensures info == i
    {
      info := i;
    }
  }

  datatype Memo = Memo(dict: InfoDict, owner: Text)

  type Memos = map<Digest, Memo>

  type Answer = map<Text, InfoDict>

  /** Every memo holds the projection of its identity. */
  predicate Memoised(resolved: Memos, db: Catalog)
  {
    forall d :: d in resolved ==> resolved[d].dict.info == Projection(Found(db, d))
  }

  /** No two keys share a dictionary, and a memo dictionary is only given to its owner. */
  predicate Separate(resolved: Memos, result: Answer)
  {
    && (forall d, e :: d in resolved && e in resolved && d != e ==> resolved[d].dict != resolved[e].dict)
    && (forall k, l :: k in result && l in result && k != l ==> result[k] != result[l])
    && (forall d, k :: d in resolved && k in result && result[k] == resolved[d].dict ==> resolved[d].owner == k)
  }

  predicate Values(result: Answer, expected: map<Text, Info>)
  {
    result.Keys == expected.Keys && forall k :: k in result ==> result[k].info == expected[k]
  }

  /** All dictionaries are among those that this reading made. */
  predicate Among(resolved: Memos, result: Answer, made: set<InfoDict>)
  {
    (forall d :: d in resolved ==> resolved[d].dict in made) && forall k :: k in result ==> result[k] in made
  }

  /** The rows up to `n` were answered as the plain loop answers them, without sharing. */
  predicate ReadUpTo(rows: seq<Row>, n: nat, db: Catalog, resolved: Memos, result: Answer, made: set<InfoDict>)
    requires n <= |rows|
  {
    && Memoised(resolved, db) && Separate(resolved, result) && Among(resolved, result, made)
    && Values(result, Naive(rows[..n], db))
  }

  function Digests(rows: seq<Row>): set<Digest>
  {
    set i | 0 <= i < |rows| :: rows[i].digest
  }

  lemma DigestsMore(rows: seq<Row>, i: nat)
    requires i < |rows|
    ensures Digests(rows[..i + 1]) == Digests(rows[..i]) + {rows[i].digest}
  {
    assert rows[..i + 1] == rows[..i] + [rows[i]];
    assert rows[..i + 1][i] == rows[i];
    assert forall j :: 0 <= j < i ==> rows[..i + 1][j] == rows[..i][j];
  }

  /** The identities that a page mentions for the first time, each with the key that owns its memo. */
  method NewIdentities(rows: seq<Row>, start: nat, end: nat, known: set<Digest>) returns (pending: map<Digest, Text>)
    requires start <= end <= |rows| && known == Digests(rows[..start])
    ensures pending.Keys == Digests(rows[..end]) - known
  {
    pending := map[];
    var i := start;
    while i < end
      invariant start <= i <= end
      invariant pending.Keys == Digests(rows[..i]) - known
    {
      DigestsMore(rows, i);
      hide Digests;
      if rows[i].digest !in known && rows[i].digest !in pending {
        pending := pending[rows[i].digest := rows[i].key];
      }
      i := i + 1;
    }
  }

  /** Memoise some identities; none of the new dictionaries is in use yet. */
  method Memoise(before: Memos, todo: set<Digest>, pending: map<Digest, Text>, db: Catalog,
                 ghost result: Answer, ghost made: set<InfoDict>)
      returns (resolved: Memos, ghost made': set<InfoDict>)
    requires todo <= pending.Keys && todo !! before.Keys
    requires Memoised(before, db) && Separate(before, result) && Among(before, result, made)
    ensures resolved.Keys == before.Keys + todo
    ensures Memoised(resolved, db) && Separate(resolved, result) && Among(resolved, result, made')
    ensures made <= made' && fresh(made' - made)
  {
    resolved, made' := before, made;
    var rest := todo;
    hide Projection, Found;
    while rest != {}
      invariant rest <= todo && resolved.Keys == before.Keys + (todo - rest)
      invariant Memoised(resolved, db) && Separate(resolved, result) && Among(resolved, result, made')
      invariant made <= made' && fresh(made' - made)
    {
      Inhabited(rest);
      var d :| d in rest;
      var dict := new InfoDict(Projection(Found(db, d)));
      resolved := resolved[d := Memo(dict, pending[d])];
      made' := made' + {dict};
      rest := rest - {d};
    }
  }

  /** Give a row its dictionary: the memo's own one to its owner, a copy to anybody else. */
  method Answering(resolved: Memos, before: Answer, row: Row, ghost made: set<InfoDict>)
      returns (result: Answer, ghost made': set<InfoDict>)
    requires row.digest in resolved && Separate(resolved, before) && Among(resolved, before, made)
    ensures var key, info := row.key, resolved[row.digest].dict.info;
      && result.Keys == before.Keys + {key}
      && result[key].info == Merged(if key in before then Some(before[key].info) else None, info)
      && (forall k :: k in before && k != key ==> result[k] == before[k])
    ensures Separate(resolved, result) && Among(resolved, result, made')
    ensures made <= made' && fresh(made' - made)
  {
    made' := made;
    var memo := resolved[row.digest];
    var dict := memo.dict;
    if row.key != memo.owner {
      dict := new InfoDict(memo.dict.info);
      made' := made' + {dict};
    }
    if row.key in before && Pair(before[row.key].info) != Pair(dict.info) {
      dict := new InfoDict(CONFLICT);
      made' := made' + {dict};
    }
    result := before[row.key := dict];
  }

  predicate AskedOnce(queries: seq<set<Digest>>, asked: set<Digest>)
  {
    && (forall i, j :: 0 <= i < j < |queries| ==> queries[i] !! queries[j])
    && (forall i :: 0 <= i < |queries| ==> queries[i] <= asked)
    && (forall d :: d in asked ==> exists i :: 0 <= i < |queries| && d in queries[i])
  }

  lemma AskMore(queries: seq<set<Digest>>, asked: set<Digest>, more: set<Digest>)
    requires AskedOnce(queries, asked) && asked !! more
    ensures AskedOnce(queries + [more], asked + more)
  {
    var q := queries + [more];
    forall d | d in asked + more
      ensures exists i :: 0 <= i < |q| && d in q[i]
    {
      if d in asked {
        var i :| 0 <= i < |queries| && d in queries[i];
        assert d in q[i];
      } else {
        assert d in q[|queries|];
      }
    }
  }

  /** Page by page, each page asking only for identities never seen before. */
  method Read(rows: seq<Row>, size: nat, db: Catalog) returns (result: Answer, queries: seq<set<Digest>>)
    requires size > 0
    ensures Values(result, Naive(rows, db))
    ensures forall k, l :: k in result && l in result && k != l ==> result[k] != result[l]
    ensures forall k :: k in result ==> fresh(result[k])
    ensures AskedOnce(queries, Digests(rows))
  {
    result, queries := map[], [];
    var resolved: Memos := map[];
    var start := 0;
    ghost var made: set<InfoDict> := {};
    assert rows[..0] == [] && Digests([]) == {};
    assert AskedOnce([], {}) && ReadUpTo(rows, 0, db, resolved, result, made);
    hide Memoised, Separate, Values, Among, Naive, AskedOnce, Digests, ReadUpTo, Projection, Found, Merged;
    while start < |rows|
      invariant 0 <= start <= |rows|
      invariant resolved.Keys == Digests(rows[..start]) && AskedOnce(queries, resolved.Keys)
      invariant ReadUpTo(rows, start, db, resolved, result, made) && fresh(made)
    {
      var end := Min(start + size, |rows|);
      var pending := NewIdentities(rows, start, end, resolved.Keys);
      DigestsGrow(rows, start, end);
      queries := Ask(queries, pending, resolved.Keys);
      resolved, result, made := ReadPage(rows, start, end, db, pending, resolved, result, made);
      start := end;
    }
    assert rows[..start] == rows;
    ReadIs(rows, db, resolved, result, made);
  }

  lemma ReadIs(rows: seq<Row>, db: Catalog, resolved: Memos, result: Answer, made: set<InfoDict>)
    requires ReadUpTo(rows, |rows|, db, resolved, result, made)
    ensures Values(result, Naive(rows, db))
    ensures forall k, l :: k in result && l in result && k != l ==> result[k] != result[l]
    ensures forall k :: k in result ==> result[k] in made
  {
    assert rows[..|rows|] == rows;
  }

  /** A query is sent only when something is unknown. */
  method Ask(before: seq<set<Digest>>, pending: map<Digest, Text>, ghost asked: set<Digest>)
      returns (queries: seq<set<Digest>>)
    requires AskedOnce(before, asked) && asked !! pending.Keys
    ensures AskedOnce(queries, asked + pending.Keys)
  {
    if pending == map[] {
      assert asked + pending.Keys == asked;
      return before;
    }
    AskMore(before, asked, pending.Keys);
    queries := before + [pending.Keys];
  }

  /** One page: memoise what the query found and what it did not find, then answer the rows in order. */
  method ReadPage(rows: seq<Row>, start: nat, end: nat, db: Catalog, pending: map<Digest, Text>,
                  known: Memos, before: Answer, ghost made: set<InfoDict>)
      returns (resolved: Memos, result: Answer, ghost made': set<InfoDict>)
    requires start <= end <= |rows| && known.Keys == Digests(rows[..start])
    requires pending.Keys == Digests(rows[..end]) - known.Keys && known.Keys <= Digests(rows[..end])
    requires ReadUpTo(rows, start, db, known, before, made)
    ensures resolved.Keys == known.Keys + pending.Keys == Digests(rows[..end])
    ensures ReadUpTo(rows, end, db, resolved, result, made')
    ensures made <= made' && fresh(made' - made)
  {
    hide Memoised, Separate, Values, Among, Naive, Digests;
    var found := set d | d in pending && d in db;
    ghost var made1, made2;
    resolved, made1 := Memoise(known, found, pending, db, before, made);
    resolved, made2 := Memoise(resolved, pending.Keys - found, pending, db, before, made1);
    assert resolved.Keys == Digests(rows[..end]);
    result, made' := AnswerPage(rows, start, end, db, resolved, before, made2);
  }

  lemma DigestsGrow(rows: seq<Row>, start: nat, end: nat)
    requires start <= end <= |rows|
    ensures Digests(rows[..start]) <= Digests(rows[..end])
  {
    forall d | d in Digests(rows[..start])
      ensures d in Digests(rows[..end])
    {
      var i :| 0 <= i < start && rows[..start][i].digest == d;
      assert rows[..end][i].digest == d;
    }
  }

  method AnswerPage(rows: seq<Row>, start: nat, end: nat, db: Catalog, resolved: Memos, before: Answer,
                    ghost made: set<InfoDict>)
      returns (result: Answer, ghost made': set<InfoDict>)
    requires start <= end <= |rows| && resolved.Keys == Digests(rows[..end])
    requires ReadUpTo(rows, start, db, resolved, before, made)
    ensures ReadUpTo(rows, end, db, resolved, result, made')
    ensures made <= made' && fresh(made' - made)
  {
    result, made' := before, made;
    var i := start;
    hide Memoised, Separate, Among, Merged, Naive, Values;
    while i < end
      invariant start <= i <= end
      invariant ReadUpTo(rows, i, db, resolved, result, made')
      invariant made <= made' && fresh(made' - made)
    {
      assert rows[i].digest in resolved by { assert rows[..end][i] == rows[i]; }
      ghost var previous := result;
      result, made' := Answering(resolved, result, rows[i], made');
      ValuesStep(rows, i, db, resolved, previous, result);
      i := i + 1;
    }
  }

  lemma ValuesStep(rows: seq<Row>, i: nat, db: Catalog, resolved: Memos, before: Answer, after: Answer)
    requires i < |rows| && Memoised(resolved, db) && rows[i].digest in resolved
    requires Values(before, Naive(rows[..i], db))
    requires var key, info := rows[i].key, resolved[rows[i].digest].dict.info;
      && after.Keys == before.Keys + {key}
      && after[key].info == Merged(if key in before then Some(before[key].info) else None, info)
      && (forall k :: k in before && k != key ==> after[k] == before[k])
    ensures Values(after, Naive(rows[..i + 1], db))
  {
    assert rows[..i + 1][..i] == rows[..i];
    hide Merged, Projection, Found;
  }
}
