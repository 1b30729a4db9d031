/** The duplicate detection of syncService.js on one list of records: the content key of
    a record, the merge of incoming records into a local list, the removal of duplicates
    from a list, and the duplicate count report. */
module Dedup {
  import opened Wrappers
  import opened Text
  import opened JsValues
  import opened Subsequences

  // ---------------------------------------------------------------------------
  // The content key (gerarChaveUnica)

  /** One normalised key component: absent becomes empty, then lower-case and trimmed. */
  function Part(s: Option<string>): string {
    Trim(Lower(OrEmpty(s)))
  }

  /** The key of a record whose description, category and date are all blank. */
  const BlankKey: string := "||"

  /** Three components joined by '|'. */
  function KeyText(d: string, c: string, t: string): string {
    d + "|" + c + "|" + t
  }

  lemma KeyTextBlank(d: string, c: string, t: string)
    ensures KeyText(d, c, t) == BlankKey <==> d == [] && c == [] && t == []
  {
    if d == [] && c == [] && t == [] {
      assert KeyText(d, c, t) == BlankKey;
    }
  }

  /** gerarChaveUnica: description and category lower-cased and trimmed, the date trimmed
      only. */
  function Key(x: Item): string {
    KeyText(Part(x.descricao), Part(x.categoria), Trim(OrEmpty(x.data)))
  }

  /** The key is blank exactly when all three components normalise to the empty string. */
  lemma KeyBlankIff(x: Item)
    ensures Key(x) == BlankKey <==>
            Part(x.descricao) == [] && Part(x.categoria) == [] && Trim(OrEmpty(x.data)) == []
  {
    KeyTextBlank(Part(x.descricao), Part(x.categoria), Trim(OrEmpty(x.data)));
  }

  lemma LowerPadded(p: string, s: string, q: string)
    requires AllSpace(p) && AllSpace(q)
    ensures Lower(p + s + q) == p + Lower(s) + q
  {
    LowerAppend(p + s, q);
    LowerAppend(p, s);
    AllSpaceLower(p);
    AllSpaceLower(q);
  }

  /** Case and surrounding white space in the description and the category, and
      surrounding white space in the date, do not change the key. */
  lemma KeyNormalises(x: Item, p: string, q: string, d: string, c: string, t: string)
    requires AllSpace(p) && AllSpace(q)
    ensures Key(x.(descricao := Some(p + d + q), categoria := Some(p + c + q), data := Some(p + t + q)))
         == Key(x.(descricao := Some(Lower(d)), categoria := Some(Lower(c)), data := Some(t)))
  {
    LowerPadded(p, d, q);
    LowerPadded(p, c, q);
    TrimPadding(p, Lower(d), q);
    TrimPadding(p, Lower(c), q);
    TrimPadding(p, t, q);
    LowerIdempotent(d);
    LowerIdempotent(c);
  }

  /** A '|' inside a field lets two different records share a key: a description
      `a|b` with category `c`, and a description `a` with category `b|c`. */
  lemma KeySeparatorCollision(a: string, b: string, c: string)
    requires Plain(a) && Plain(b) && Plain(c)
    ensures Empty.(descricao := Some(a + "|" + b), categoria := Some(c))
         != Empty.(descricao := Some(a), categoria := Some(b + "|" + c))
    ensures Key(Empty.(descricao := Some(a + "|" + b), categoria := Some(c)))
         == Key(Empty.(descricao := Some(a), categoria := Some(b + "|" + c)))
  {
    assert |a + "|" + b| != |a|;
    PlainJoin(a, b);
    PlainJoin(b, c);
    PartPlain(a + "|" + b);
    PartPlain(c);
    PartPlain(a);
    PartPlain(b + "|" + c);
    KeyTextShift(a, b, c, "");
  }

  /** Lower-case ASCII letters and '|'. */
  predicate Plain(s: string) {
    forall i :: 0 <= i < |s| ==> 'a' <= s[i] <= 'z' || s[i] == '|'
  }

  lemma PlainJoin(a: string, b: string)
    requires Plain(a) && Plain(b)
    ensures Plain(a + "|" + b)
  {
    var s := a + "|" + b;
    forall i | 0 <= i < |s| ensures 'a' <= s[i] <= 'z' || s[i] == '|' {
      if i < |a| {
        assert s[i] == a[i];
      } else if i > |a| {
        assert s[i] == b[i - |a| - 1];
      }
    }
  }

  /** A plain field is its own normal form. */
  lemma PartPlain(s: string)
    requires Plain(s)
    ensures Part(Some(s)) == s
  {
    LowerPlain(s);
    if s != [] {
      PlainNotSpace(s[0]);
      PlainNotSpace(s[|s| - 1]);
      NoSpaceTrim(s);
    }
  }

  lemma PlainNotSpace(ch: char)
    requires 'a' <= ch <= 'z' || ch == '|'
    ensures !IsSpace(ch)
  {
  }

  lemma {:induction false} LowerPlain(s: string)
    requires Plain(s)
    ensures Lower(s) == s
  {
    if s != [] {
      LowerPlain(s[1..]);
    }
  }

  /** Where a '|' sits decides nothing: moving a field's tail into the next field keeps
      the joined text. */
  lemma KeyTextShift(a: string, b: string, c: string, t: string)
    ensures KeyText(a + "|" + b, c, t) == KeyText(a, b + "|" + c, t)
  {
    assert a + "|" + b + "|" + c + "|" + t == a + "|" + (b + "|" + c) + "|" + t;
  }

  /** Changing only the id of a record leaves its key unchanged. */
  lemma KeyIgnoresId()
    ensures IgnoresId(Key)
  {
  }

  // ---------------------------------------------------------------------------
  // Keys of a list
  //
  // The list operations below take the key function as a parameter `key`; the ledger
  // instantiates it with Key. Only the facts stated by IgnoresId and BlankKey matter.

  type KeyFn = Item -> string

  /** Setting an id does not change a record's key. */
  ghost predicate IgnoresId(key: KeyFn) {
    forall x: Item, i: Option<Id> :: key(x.(id := i)) == key(x)
  }

  /** The non-blank keys of a list. */
  function KeysOf(key: KeyFn, xs: seq<Item>): (ks: set<string>)
    ensures BlankKey !in ks
  {
    if xs == [] then {}
    else
      var n := |xs| - 1;
      KeysOf(key, xs[..n]) + (if key(xs[n]) == BlankKey then {} else {key(xs[n])})
  }

  /** A key belongs to the set exactly when it is not blank and some record has it. */
  lemma {:induction false} KeysOfMeaning(key: KeyFn, xs: seq<Item>, k: string)
    ensures k in KeysOf(key, xs) <==> k != BlankKey && exists i :: 0 <= i < |xs| && key(xs[i]) == k
  {
    if xs != [] {
      var n := |xs| - 1;
      KeysOfMeaning(key, xs[..n], k);
      if k in KeysOf(key, xs[..n]) {
        var i :| 0 <= i < n && key(xs[..n][i]) == k;
        assert xs[i] == xs[..n][i];
      }
      if k != BlankKey && (exists i :: 0 <= i < |xs| && key(xs[i]) == k) {
        var i :| 0 <= i < |xs| && key(xs[i]) == k;
        if i < n {
          assert key(xs[..n][i]) == k;
        }
      }
    }
  }

  lemma {:induction false} KeysOfAppend(key: KeyFn, a: seq<Item>, b: seq<Item>)
    ensures KeysOf(key, a + b) == KeysOf(key, a) + KeysOf(key, b)
  {
    if b == [] {
      assert a + b == a;
    } else {
      var n := |b| - 1;
      assert (a + b)[..|a + b| - 1] == a + b[..n];
      KeysOfAppend(key, a, b[..n]);
    }
  }

  lemma KeysOfSnoc(key: KeyFn, a: seq<Item>, x: Item)
    ensures KeysOf(key, a + [x]) == KeysOf(key, a) + (if key(x) == BlankKey then {} else {key(x)})
  {
    assert (a + [x])[..|a|] == a;
  }

  /** How many records of the list have a non-blank key. */
  function NonBlankCount(key: KeyFn, xs: seq<Item>): (c: nat)
    ensures |KeysOf(key, xs)| <= c <= |xs|
  {
    if xs == [] then 0
    else
      var n := |xs| - 1;
      var pre := xs[..n];
      if key(xs[n]) == BlankKey then NonBlankCount(key, pre)
      else
        assert KeysOf(key, xs) == KeysOf(key, pre) + {key(xs[n])};
        NonBlankCount(key, pre) + 1
  }

  /** The number of records that repeat an earlier non-blank key. */
  function DuplicateCount(key: KeyFn, xs: seq<Item>): nat {
    NonBlankCount(key, xs) - |KeysOf(key, xs)|
  }

  lemma NonBlankCountSnoc(key: KeyFn, a: seq<Item>, x: Item)
    ensures NonBlankCount(key, a + [x]) == NonBlankCount(key, a) + (if key(x) == BlankKey then 0 else 1)
  {
    assert (a + [x])[..|a|] == a;
  }

  /** A record without its id: what "the same record" means once ids are filled in. */
  function Content(x: Item): Item {
    x.(id := None)
  }

  function Contents(xs: seq<Item>): (r: seq<Item>)
    ensures |r| == |xs|
  {
    seq(|xs|, i requires 0 <= i < |xs| => Content(xs[i]))
  }

  lemma ContentsSnoc(xs: seq<Item>, x: Item)
    ensures Contents(xs + [x]) == Contents(xs) + [Content(x)]
  {
  }

  // ---------------------------------------------------------------------------
  // Merge (mesclarArraySemDuplicatas)

  /** The clock reading and the random base-36 text that gerarNovoID combines. */
  datatype Stamp = Stamp(millis: nat, random: string)

  /** gerarNovoID: `${millis}_${random}`. */
  function GerarNovoID(st: Stamp): (id: Id)
    ensures IdTruthy(Some(id)) && id.StrId? && '_' in id.s
  {
    var t := NatText(st.millis) + "_" + st.random;
    assert t[|NatText(st.millis)|] == '_';
    StrId(t)
  }

  /** The id the n-th incoming record receives if it has none: one reading of the clock
      and of the random generator per record. */
  type IdSupply = nat -> Stamp

  /** `item.id = item.id || gerarNovoID()` */
  function WithId(x: Item, st: Stamp): (y: Item)
    ensures IdTruthy(y.id) && Content(y) == Content(x)
    ensures IdTruthy(x.id) ==> y == x
  {
    x.(id := if IdTruthy(x.id) then x.id else Some(GerarNovoID(st)))
  }

  /** Whether an incoming record is new: its key is not blank and not seen before. */
  predicate Admits(key: KeyFn, seen: set<string>, x: Item) {
    key(x) != BlankKey && key(x) !in seen
  }

  /** The incoming records appended by the merge, in order, given the local keys `base`:
      each one whose key is neither blank, local, nor that of an earlier incoming record,
      with an id filled in. */
  function Accepted(key: KeyFn, base: set<string>, xs: seq<Item>, ids: IdSupply): seq<Item>
  {
    if xs == [] then []
    else
      var n := |xs| - 1;
      var pre := Accepted(key, base, xs[..n], ids);
      if Admits(key, base + KeysOf(key, xs[..n]), xs[n]) then pre + [WithId(xs[n], ids(n))] else pre
  }

  /** The result of mesclarArraySemDuplicatas: the local list unless the incoming value is a
      non-empty array, and otherwise the local list followed by the accepted records. */
  function Merged(key: KeyFn, local: seq<Item>, incoming: JsList, ids: IdSupply): (r: seq<Item>)
    ensures |local| <= |r| && r[..|local|] == local
  {
    if !incoming.Array? || incoming.items == [] then local
    else local + Accepted(key, KeysOf(key, local), incoming.items, ids)
  }

  method MesclarArraySemDuplicatas(key: KeyFn, local: seq<Item>, incoming: JsList, ids: IdSupply)
    returns (r: seq<Item>)
    ensures r == Merged(key, local, incoming, ids)
  {
    if !incoming.Array? || |incoming.items| == 0 {
      return local;
    }
    var mapaLocal := MapaLocal(key, local);
    var novosItens := DadosNovos(key, mapaLocal, incoming.items, ids);
    r := local + novosItens;
  }

  /** The map of local records by non-blank key. */
  method MapaLocal(key: KeyFn, local: seq<Item>) returns (mapaLocal: map<string, Item>)
    ensures mapaLocal.Keys == KeysOf(key, local)
  {
    mapaLocal := map[];
    var i := 0;
    while i < |local|
      invariant 0 <= i <= |local|
      invariant mapaLocal.Keys == KeysOf(key, local[..i])
    {
      var chave := key(local[i]);
      assert local[..i + 1] == local[..i] + [local[i]];
      KeysOfSnoc(key, local[..i], local[i]);
      if chave != BlankKey {
        mapaLocal := mapaLocal[chave := local[i]];
      }
      i := i + 1;
    }
    assert local[..|local|] == local;
  }

  /** The incoming loop: each record with a new non-blank key is given an id, kept, and
      entered in the map. */
  method DadosNovos(key: KeyFn, mapaLocal: map<string, Item>, xs: seq<Item>, ids: IdSupply)
    returns (novosItens: seq<Item>)
    ensures novosItens == Accepted(key, mapaLocal.Keys, xs, ids)
  {
    var mapa := mapaLocal;
    novosItens := [];
    var j := 0;
    while j < |xs|
      invariant 0 <= j <= |xs|
      invariant mapa.Keys == mapaLocal.Keys + KeysOf(key, xs[..j])
      invariant novosItens == Accepted(key, mapaLocal.Keys, xs[..j], ids)
    {
      var item := xs[j];
      var chave := key(item);
      AcceptedStep(key, mapaLocal.Keys, xs, j, ids);
      ghost var seen := mapa.Keys;
      if chave != BlankKey && chave !in mapa {
        item := WithId(item, ids(j));
        novosItens := novosItens + [item];
        mapa := mapa[chave := item];
        assert mapa.Keys == seen + {chave};
      } else {
        assert seen + (if chave == BlankKey then {} else {chave}) == seen;
      }
      j := j + 1;
    }
    assert xs[..|xs|] == xs;
  }

  /** One step of the incoming loop: the next record is appended exactly when admitted,
      and its key joins the seen keys unless blank. */
  lemma AcceptedStep(key: KeyFn, base: set<string>, xs: seq<Item>, j: nat, ids: IdSupply)
    requires j < |xs|
    ensures Accepted(key, base, xs[..j + 1], ids)
            == if Admits(key, base + KeysOf(key, xs[..j]), xs[j])
               then Accepted(key, base, xs[..j], ids) + [WithId(xs[j], ids(j))]
               else Accepted(key, base, xs[..j], ids)
    ensures KeysOf(key, xs[..j + 1])
            == KeysOf(key, xs[..j]) + (if key(xs[j]) == BlankKey then {} else {key(xs[j])})
  {
    assert xs[..j + 1][..j] == xs[..j] && xs[..j + 1][j] == xs[j];
    assert xs[..j + 1] == xs[..j] + [xs[j]];
    KeysOfSnoc(key, xs[..j], xs[j]);
  }

  /** The keys the merge appends are the incoming keys that are neither blank nor local. */
  lemma {:induction false} AcceptedKeySet(key: KeyFn, base: set<string>, xs: seq<Item>, ids: IdSupply)
    requires IgnoresId(key)
    ensures KeysOf(key, Accepted(key, base, xs, ids)) == KeysOf(key, xs) - base
  {
    if xs != [] {
      var n := |xs| - 1;
      var pre := xs[..n];
      var a0 := Accepted(key, base, pre, ids);
      var acc := Accepted(key, base, xs, ids);
      AcceptedKeySet(key, base, pre, ids);
      var k, k0 := key(xs[n]), KeysOf(key, pre);
      assert KeysOf(key, xs) == k0 + (if k == BlankKey then {} else {k}) by {
        assert xs == pre + [xs[n]];
        KeysOfSnoc(key, pre, xs[n]);
      }
      if Admits(key, base + k0, xs[n]) {
        assert KeysOf(key, acc) == (k0 - base) + {k} by {
          var y := WithId(xs[n], ids(n));
          assert key(y) == k;
          assert acc == a0 + [y];
          KeysOfSnoc(key, a0, y);
        }
        assert (k0 - base) + {k} == (k0 + {k}) - base;
      } else {
        assert acc == a0;
        if k != BlankKey {
          assert (k0 + {k}) - base == k0 - base;
        }
      }
    }
  }

  /** The keys the merge appends: one record per incoming key that is neither blank nor
      local. */
  lemma {:induction false} AcceptedKeys(key: KeyFn, base: set<string>, xs: seq<Item>, ids: IdSupply)
    requires IgnoresId(key)
    ensures KeysOf(key, Accepted(key, base, xs, ids)) == KeysOf(key, xs) - base
    ensures |Accepted(key, base, xs, ids)| == |KeysOf(key, xs) - base|
  {
    AcceptedKeySet(key, base, xs, ids);
    if xs != [] {
      var n := |xs| - 1;
      var pre := xs[..n];
      var a0 := Accepted(key, base, pre, ids);
      AcceptedKeys(key, base, pre, ids);
      if Admits(key, base + KeysOf(key, pre), xs[n]) {
        var y := WithId(xs[n], ids(n));
        assert key(y) == key(xs[n]);
        SnocFreshKey(key, a0, KeysOf(key, a0), y);
      }
    }
  }

  /** Appending a record with a fresh non-blank key to a list whose keys are all distinct. */
  lemma SnocFreshKey(key: KeyFn, a: seq<Item>, ks: set<string>, y: Item)
    requires KeysOf(key, a) == ks && |a| == |ks|
    requires key(y) != BlankKey && key(y) !in ks
    ensures KeysOf(key, a + [y]) == ks + {key(y)} && |a + [y]| == |ks + {key(y)}|
  {
    KeysOfSnoc(key, a, y);
  }

  /** Every appended record has a fresh, non-blank key and a truthy id. */
  lemma {:induction false} AcceptedAdmitted(key: KeyFn, base: set<string>, xs: seq<Item>, ids: IdSupply)
    requires IgnoresId(key)
    ensures forall y :: y in Accepted(key, base, xs, ids) ==>
              key(y) != BlankKey && key(y) !in base && IdTruthy(y.id)
  {
    if xs != [] {
      var n := |xs| - 1;
      AcceptedAdmitted(key, base, xs[..n], ids);
      var y := WithId(xs[n], ids(n));
      assert key(y) == key(xs[n]);
    }
  }

  /** Apart from the ids filled in, the appended records are incoming records, in order. */
  lemma {:induction false} AcceptedSubseq(key: KeyFn, base: set<string>, xs: seq<Item>, ids: IdSupply)
    ensures SubseqOf(Contents(Accepted(key, base, xs, ids)), Contents(xs))
  {
    if xs != [] {
      var n := |xs| - 1;
      var pre := xs[..n];
      var a0 := Accepted(key, base, pre, ids);
      AcceptedSubseq(key, base, pre, ids);
      assert xs == pre + [xs[n]];
      ContentsSnoc(pre, xs[n]);
      if Admits(key, base + KeysOf(key, pre), xs[n]) {
        var y := WithId(xs[n], ids(n));
        ContentsSnoc(a0, y);
        SubseqBoth(Contents(a0), Contents(pre), Content(xs[n]));
      } else {
        SubseqExtend(Contents(a0), Contents(pre), Content(xs[n]));
      }
    }
  }

  /** The merge introduces no duplicate: records with the same non-blank key... */
  lemma MergedKeys(key: KeyFn, local: seq<Item>, xs: seq<Item>, ids: IdSupply)
    requires IgnoresId(key)
    ensures KeysOf(key, Merged(key, local, Array(xs), ids)) == KeysOf(key, local) + KeysOf(key, xs)
  {
    if xs != [] {
      AcceptedKeys(key, KeysOf(key, local), xs, ids);
      KeysOfAppend(key, local, Accepted(key, KeysOf(key, local), xs, ids));
    }
  }

  /** Nothing is accepted when every incoming key is already known. */
  lemma AcceptedNone(key: KeyFn, base: set<string>, xs: seq<Item>, ids: IdSupply)
    requires IgnoresId(key) && KeysOf(key, xs) <= base
    ensures Accepted(key, base, xs, ids) == []
  {
    AcceptedKeys(key, base, xs, ids);
  }

  /** Merging the same incoming list a second time changes nothing. */
  lemma MergeIdempotent(key: KeyFn, local: seq<Item>, incoming: JsList, ids: IdSupply, ids2: IdSupply)
    requires IgnoresId(key)
    ensures Merged(key, Merged(key, local, incoming, ids), incoming, ids2) == Merged(key, local, incoming, ids)
  {
    if incoming.Array? && incoming.items != [] {
      var m := Merged(key, local, incoming, ids);
      MergedKeys(key, local, incoming.items, ids);
      AcceptedNone(key, KeysOf(key, m), incoming.items, ids2);
      assert m + [] == m;
    }
  }

  /** When every incoming key is blank or already local, the local list is returned as is. */
  lemma MergeAllKnown(key: KeyFn, local: seq<Item>, incoming: JsList, ids: IdSupply)
    requires IgnoresId(key)
    requires incoming.Array? && KeysOf(key, incoming.items) <= KeysOf(key, local)
    ensures Merged(key, local, incoming, ids) == local
  {
    AcceptedNone(key, KeysOf(key, local), incoming.items, ids);
    assert local + [] == local;
  }

  /** The merge grows the list by exactly the number of incoming keys not known locally. */
  lemma MergedLength(key: KeyFn, local: seq<Item>, xs: seq<Item>, ids: IdSupply)
    requires IgnoresId(key)
    ensures |Merged(key, local, Array(xs), ids)| == |local| + |KeysOf(key, xs) - KeysOf(key, local)|
  {
    AcceptedKeys(key, KeysOf(key, local), xs, ids);
  }

  lemma {:induction false} NonBlankCountAppend(key: KeyFn, a: seq<Item>, b: seq<Item>)
    ensures NonBlankCount(key, a + b) == NonBlankCount(key, a) + NonBlankCount(key, b)
  {
    if b == [] {
      assert a + b == a;
    } else {
      var n := |b| - 1;
      assert a + b == (a + b[..n]) + [b[n]];
      assert b == b[..n] + [b[n]];
      NonBlankCountAppend(key, a, b[..n]);
      NonBlankCountSnoc(key, a + b[..n], b[n]);
      NonBlankCountSnoc(key, b[..n], b[n]);
    }
  }

  /** Every appended record has a non-blank key. */
  lemma {:induction false} AcceptedNonBlank(key: KeyFn, base: set<string>, xs: seq<Item>, ids: IdSupply)
    requires IgnoresId(key)
    ensures NonBlankCount(key, Accepted(key, base, xs, ids)) == |Accepted(key, base, xs, ids)|
  {
    if xs != [] {
      var n := |xs| - 1;
      var a0 := Accepted(key, base, xs[..n], ids);
      AcceptedNonBlank(key, base, xs[..n], ids);
      if Admits(key, base + KeysOf(key, xs[..n]), xs[n]) {
        var y := WithId(xs[n], ids(n));
        assert key(y) == key(xs[n]);
        NonBlankCountSnoc(key, a0, y);
      }
    }
  }

  /** The merge introduces no duplicate: the merged list has exactly the surplus records
      the local list had. */
  lemma MergePreservesDuplicates(key: KeyFn, local: seq<Item>, incoming: JsList, ids: IdSupply)
    requires IgnoresId(key)
    ensures DuplicateCount(key, Merged(key, local, incoming, ids)) == DuplicateCount(key, local)
  {
    if incoming.Array? && incoming.items != [] {
      var xs := incoming.items;
      var acc := Accepted(key, KeysOf(key, local), xs, ids);
      AcceptedKeys(key, KeysOf(key, local), xs, ids);
      AcceptedNonBlank(key, KeysOf(key, local), xs, ids);
      NonBlankCountAppend(key, local, acc);
      KeysOfAppend(key, local, acc);
      assert KeysOf(key, local) * KeysOf(key, acc) == {};
    }
  }

  // ---------------------------------------------------------------------------
  // Removal of duplicates (removerDuplicatasArray)

  /** The list with every record whose non-blank key occurred earlier removed; records
      with a blank key are all kept. */
  function Deduped(key: KeyFn, xs: seq<Item>): seq<Item> {
    if xs == [] then []
    else
      var n := |xs| - 1;
      var pre := Deduped(key, xs[..n]);
      if key(xs[n]) == BlankKey || key(xs[n]) !in KeysOf(key, xs[..n]) then pre + [xs[n]] else pre
  }

  method RemoverDuplicatasArray(key: KeyFn, xs: seq<Item>) returns (r: seq<Item>)
    ensures r == Deduped(key, xs)
  {
    var mapaUnicos: map<string, Item> := map[];
    r := [];
    var i := 0;
    while i < |xs|
      invariant 0 <= i <= |xs|
      invariant mapaUnicos.Keys == KeysOf(key, xs[..i])
      invariant r == Deduped(key, xs[..i])
    {
      var item := xs[i];
      var chave := key(item);
      assert xs[..i + 1][..i] == xs[..i];
      if chave == BlankKey {
        r := r + [item];
      } else if chave !in mapaUnicos {
        mapaUnicos := mapaUnicos[chave := item];
        r := r + [item];
      }
      i := i + 1;
    }
    assert xs[..|xs|] == xs;
  }

  /** Removing duplicates keeps every key, once. */
  lemma {:induction false} DedupedKeys(key: KeyFn, xs: seq<Item>)
    ensures KeysOf(key, Deduped(key, xs)) == KeysOf(key, xs)
    ensures NonBlankCount(key, Deduped(key, xs)) == |KeysOf(key, xs)|
  {
    if xs != [] {
      var n := |xs| - 1;
      var pre := xs[..n];
      var d0 := Deduped(key, pre);
      DedupedKeys(key, pre);
      assert xs == pre + [xs[n]];
      KeysOfSnoc(key, pre, xs[n]);
      if key(xs[n]) == BlankKey || key(xs[n]) !in KeysOf(key, pre) {
        KeysOfSnoc(key, d0, xs[n]);
        NonBlankCountSnoc(key, d0, xs[n]);
      }
    }
  }

  /** Removing duplicates deletes exactly the surplus records. */
  lemma {:induction false} DedupedLength(key: KeyFn, xs: seq<Item>)
    ensures |Deduped(key, xs)| == |xs| - DuplicateCount(key, xs)
  {
    if xs != [] {
      var n := |xs| - 1;
      var pre := xs[..n];
      DedupedLength(key, pre);
      assert xs == pre + [xs[n]];
      KeysOfSnoc(key, pre, xs[n]);
      NonBlankCountSnoc(key, pre, xs[n]);
      var k := key(xs[n]);
      var d0 := Deduped(key, pre);
      if k == BlankKey {
        assert Deduped(key, xs) == d0 + [xs[n]];
        assert KeysOf(key, xs) == KeysOf(key, pre);
      } else if k !in KeysOf(key, pre) {
        assert Deduped(key, xs) == d0 + [xs[n]];
        assert KeysOf(key, xs) == KeysOf(key, pre) + {k};
        assert |KeysOf(key, pre) + {k}| == |KeysOf(key, pre)| + 1;
      } else {
        assert Deduped(key, xs) == d0;
        assert KeysOf(key, xs) == KeysOf(key, pre);
      }
    }
  }

  /** Removing duplicates keeps the remaining records in their order. */
  lemma {:induction false} DedupedSubseq(key: KeyFn, xs: seq<Item>)
    ensures SubseqOf(Deduped(key, xs), xs)
  {
    if xs != [] {
      var n := |xs| - 1;
      var pre := xs[..n];
      DedupedSubseq(key, pre);
      assert xs == pre + [xs[n]];
      if key(xs[n]) == BlankKey || key(xs[n]) !in KeysOf(key, pre) {
        SubseqBoth(Deduped(key, pre), pre, xs[n]);
      } else {
        SubseqExtend(Deduped(key, pre), pre, xs[n]);
      }
    }
  }

  /** A deduplicated list has no duplicates left. */
  lemma DedupedNoDuplicates(key: KeyFn, xs: seq<Item>)
    ensures DuplicateCount(key, Deduped(key, xs)) == 0
  {
    DedupedKeys(key, xs);
  }

  /** Removing duplicates twice is removing them once. */
  lemma {:induction false} DedupedIdempotent(key: KeyFn, xs: seq<Item>)
    ensures Deduped(key, Deduped(key, xs)) == Deduped(key, xs)
  {
    if xs != [] {
      var n := |xs| - 1;
      var pre := xs[..n];
      var d0 := Deduped(key, pre);
      DedupedIdempotent(key, pre);
      DedupedKeys(key, pre);
      if key(xs[n]) == BlankKey || key(xs[n]) !in KeysOf(key, pre) {
        var d := d0 + [xs[n]];
        assert d[..|d| - 1] == d0;
      }
    }
  }

  // ---------------------------------------------------------------------------
  // Duplicate report (analisarDuplicatasArray)

  /** The counts of one list: all records, distinct non-blank keys, and surplus records. */
  datatype Analise = Analise(total: nat, unicos: nat, duplicatas: nat)

  /** The surplus `count - 1` summed over the listed keys. */
  function Excess(order: seq<string>, counts: map<string, int>): nat {
    if order == [] then 0
    else
      var n := |order| - 1;
      var c := if order[n] in counts then counts[order[n]] else 0;
      Excess(order[..n], counts) + (if c > 1 then c - 1 else 0)
  }

  lemma {:induction false} ExcessFrame(order: seq<string>, counts: map<string, int>, k: string, c: int)
    requires k !in order
    ensures Excess(order, counts[k := c]) == Excess(order, counts)
  {
    if order != [] {
      var n := |order| - 1;
      assert order[n] in order;
      ExcessFrame(order[..n], counts, k, c);
    }
  }

  /** The map's keys listed once each, in insertion order. */
  ghost predicate Listing(order: seq<string>, counts: map<string, int>) {
    && (forall k :: k in order <==> k in counts)
    && (forall p, q :: 0 <= p < q < |order| ==> order[p] != order[q])
    && |order| == |counts|
    && (forall k :: k in counts ==> counts[k] >= 1)
  }

  lemma {:induction false} ExcessBump(order: seq<string>, counts: map<string, int>, k: string)
    requires forall p, q :: 0 <= p < q < |order| ==> order[p] != order[q]
    requires k in order && k in counts && counts[k] >= 1
    ensures Excess(order, counts[k := counts[k] + 1]) == Excess(order, counts) + 1
  {
    var n := |order| - 1;
    var pre := order[..n];
    if order[n] == k {
      assert k !in pre;
      ExcessFrame(pre, counts, k, counts[k] + 1);
    } else {
      assert k in pre by {
        var p :| 0 <= p < |order| && order[p] == k;
        assert pre[p] == k;
      }
      ExcessBump(pre, counts, k);
    }
  }

  lemma ListingAgain(order: seq<string>, counts: map<string, int>, k: string)
    requires Listing(order, counts) && k in counts
    ensures Listing(order, counts[k := counts[k] + 1])
  {
    assert |counts[k := counts[k] + 1]| == |counts|;
  }

  lemma ListingNew(order: seq<string>, counts: map<string, int>, k: string)
    requires Listing(order, counts) && k !in counts
    ensures Listing(order + [k], counts[k := 1])
  {
    var o := order + [k];
    var m := counts[k := 1];
    assert |m| == |counts| + 1;
    forall j ensures j in o <==> j in m {
      assert j in o <==> j in order || j == k;
    }
    forall p, q | 0 <= p < q < |o| ensures o[p] != o[q] {
      if q == |order| {
        assert o[p] == order[p] && order[p] in order;
      }
    }
  }

  lemma ExcessNew(order: seq<string>, counts: map<string, int>, k: string)
    requires k !in order
    ensures Excess(order + [k], counts[k := 1]) == Excess(order, counts)
  {
    ExcessFrame(order, counts, k, 1);
    assert (order + [k])[..|order|] == order;
  }

  /** The counter map after counting the records xs: one counter per non-blank key. */
  function CountsOf(key: KeyFn, xs: seq<Item>): map<string, int> {
    if xs == [] then map[]
    else
      var n := |xs| - 1;
      var m := CountsOf(key, xs[..n]);
      var k := key(xs[n]);
      if k == BlankKey then m
      else if k in m then m[k := m[k] + 1]
      else m[k := 1]
  }

  /** The counter map's keys in insertion order, which is the order a Map iterates in. */
  function KeyOrder(key: KeyFn, xs: seq<Item>): seq<string> {
    if xs == [] then []
    else
      var n := |xs| - 1;
      var k := key(xs[n]);
      if k == BlankKey || k in CountsOf(key, xs[..n]) then KeyOrder(key, xs[..n])
      else KeyOrder(key, xs[..n]) + [k]
  }

  /** The counters are keyed by exactly the non-blank keys. */
  lemma {:induction false} CountsKeys(key: KeyFn, xs: seq<Item>)
    ensures CountsOf(key, xs).Keys == KeysOf(key, xs)
  {
    if xs != [] {
      var n := |xs| - 1;
      CountsKeys(key, xs[..n]);
    }
  }

  /** The insertion order lists every counted key once, and every counter is positive. */
  lemma {:induction false} OrderListing(key: KeyFn, xs: seq<Item>)
    ensures Listing(KeyOrder(key, xs), CountsOf(key, xs))
  {
    if xs != [] {
      var n := |xs| - 1;
      var pre := xs[..n];
      OrderListing(key, pre);
      var k := key(xs[n]);
      if k != BlankKey {
        if k in CountsOf(key, pre) {
          ListingAgain(KeyOrder(key, pre), CountsOf(key, pre), k);
        } else {
          ListingNew(KeyOrder(key, pre), CountsOf(key, pre), k);
        }
      }
    }
  }

  /** The surplus of the counters is the number of non-blank records beyond the first
      of each key. */
  lemma {:induction false} OrderExcess(key: KeyFn, xs: seq<Item>)
    ensures Excess(KeyOrder(key, xs), CountsOf(key, xs)) + |KeyOrder(key, xs)| == NonBlankCount(key, xs)
  {
    if xs != [] {
      var n := |xs| - 1;
      var pre := xs[..n];
      OrderExcess(key, pre);
      var k := key(xs[n]);
      var order, counts := KeyOrder(key, pre), CountsOf(key, pre);
      if k == BlankKey {
        assert KeyOrder(key, xs) == order && CountsOf(key, xs) == counts;
        assert NonBlankCount(key, xs) == NonBlankCount(key, pre);
      } else if k in counts {
        assert KeyOrder(key, xs) == order && CountsOf(key, xs) == counts[k := counts[k] + 1];
        assert NonBlankCount(key, xs) == NonBlankCount(key, pre) + 1;
        assert Excess(order, counts[k := counts[k] + 1]) == Excess(order, counts) + 1 by {
          OrderListing(key, pre);
          ExcessBump(order, counts, k);
        }
      } else {
        assert KeyOrder(key, xs) == order + [k] && CountsOf(key, xs) == counts[k := 1];
        assert NonBlankCount(key, xs) == NonBlankCount(key, pre) + 1;
        assert Excess(order + [k], counts[k := 1]) == Excess(order, counts) by {
          OrderListing(key, pre);
          ExcessNew(order, counts, k);
        }
      }
    }
  }

  /** The counters give one entry per distinct key and the surplus of repeated records. */
  lemma CountsMeaning(key: KeyFn, xs: seq<Item>)
    ensures |CountsOf(key, xs)| == |KeysOf(key, xs)|
    ensures Excess(KeyOrder(key, xs), CountsOf(key, xs)) == DuplicateCount(key, xs)
  {
    CountsKeys(key, xs);
    OrderListing(key, xs);
    OrderExcess(key, xs);
    var m := CountsOf(key, xs);
    assert |m| == |m.Keys|;
  }

  method AnalisarDuplicatasArray(key: KeyFn, xs: seq<Item>) returns (a: Analise)
    ensures a.total == |xs| && a.unicos == |KeysOf(key, xs)| && a.duplicatas == DuplicateCount(key, xs)
  {
    var contadores, ordem := Contar(key, xs);
    var duplicatas := SomarExcesso(ordem, contadores);
    CountsMeaning(key, xs);
    a := Analise(|xs|, |contadores|, duplicatas);
  }

  /** The counting loop: one counter per non-blank key, and the keys in the order the Map
      received them. */
  method Contar(key: KeyFn, xs: seq<Item>) returns (contadores: map<string, int>, ordem: seq<string>)
    ensures contadores == CountsOf(key, xs) && ordem == KeyOrder(key, xs)
  {
    contadores, ordem := map[], [];
    var i := 0;
    while i < |xs|
      invariant 0 <= i <= |xs|
      invariant contadores == CountsOf(key, xs[..i]) && ordem == KeyOrder(key, xs[..i])
    {
      var chave := key(xs[i]);
      assert xs[..i + 1][..i] == xs[..i];
      if chave != BlankKey {
        if chave in contadores {
          contadores := contadores[chave := contadores[chave] + 1];
        } else {
          contadores := contadores[chave := 1];
          ordem := ordem + [chave];
        }
      }
      i := i + 1;
    }
    assert xs[..|xs|] == xs;
  }

  /** The loop over the counters adding `count - 1` for every repeated key. */
  method SomarExcesso(ordem: seq<string>, contadores: map<string, int>) returns (duplicatas: int)
    ensures duplicatas == Excess(ordem, contadores)
  {
    duplicatas := 0;
    var j := 0;
    while j < |ordem|
      invariant 0 <= j <= |ordem|
      invariant duplicatas == Excess(ordem[..j], contadores)
    {
      assert ordem[..j + 1][..j] == ordem[..j];
      var c := if ordem[j] in contadores then contadores[ordem[j]] else 0;
      if c > 1 {
        duplicatas := duplicatas + (c - 1);
      }
      j := j + 1;
    }
    assert ordem[..|ordem|] == ordem;
  }

  /** The reported surplus is exactly what removing duplicates deletes. */
  lemma AnalysisMatchesRemoval(key: KeyFn, xs: seq<Item>)
    ensures DuplicateCount(key, xs) == |xs| - |Deduped(key, xs)|
  {
    DedupedLength(key, xs);
  }
}
