/** The `criar-backup` handler of the main process (index.js): copy the data file into the
    backup directory under a timestamped name, then keep only the ten greatest backup
    names. The file system is a class holding whether the data file exists and the
    backup directory's entries, in the order readdir lists them. */
module Backups {
  import opened Text
  import opened Subsequences

  // ---------------------------------------------------------------------------
  // String order

  /** `a < b` on strings, as the default `sort` compares them: character by character,
      a proper prefix first. */
  predicate LexLess(a: string, b: string)
    decreases |a|
  {
    if b == [] then false
    else if a == [] then true
    else if a[0] != b[0] then a[0] < b[0]
    else LexLess(a[1..], b[1..])
  }

  lemma {:induction false} LexAsymmetric(a: string, b: string)
    ensures !(LexLess(a, b) && LexLess(b, a))
    decreases |a|
  {
    if a != [] && b != [] && a[0] == b[0] {
      LexAsymmetric(a[1..], b[1..]);
    }
  }

  lemma {:induction false} LexTransitive(a: string, b: string, c: string)
    requires LexLess(a, b) && LexLess(b, c)
    ensures LexLess(a, c)
    decreases |a|
  {
    if a != [] && a[0] == b[0] && b[0] == c[0] {
      LexTransitive(a[1..], b[1..], c[1..]);
    }
  }

  lemma {:induction false} LexTotal(a: string, b: string)
    ensures a == b || LexLess(a, b) || LexLess(b, a)
    decreases |a|
  {
    if a != [] && b != [] && a[0] == b[0] {
      LexTotal(a[1..], b[1..]);
      if a[1..] == b[1..] {
        assert a == [a[0]] + a[1..] && b == [b[0]] + b[1..];
      }
    }
  }

  /** Greatest first: no element is smaller than one after it. */
  predicate Descending(s: seq<string>) {
    forall i, j :: 0 <= i < j < |s| ==> !LexLess(s[i], s[j])
  }

  // ---------------------------------------------------------------------------
  // sort().reverse()

  function InsertDesc(x: string, s: seq<string>): (r: seq<string>)
    ensures multiset(r) == multiset(s) + multiset{x}
  {
    if s == [] then [x]
    else if LexLess(s[0], x) then [x] + s
    else
      assert s == [s[0]] + s[1..];
      [s[0]] + InsertDesc(x, s[1..])
  }

  lemma {:induction false} InsertDescSorted(x: string, s: seq<string>)
    requires Descending(s)
    ensures Descending(InsertDesc(x, s))
  {
    if s != [] {
      if LexLess(s[0], x) {
        forall j | 0 <= j < |s| ensures !LexLess(x, s[j]) {
          LexAsymmetric(x, s[0]);
          if j > 0 && LexLess(x, s[j]) {
            LexTransitive(s[0], x, s[j]);
          }
        }
        ConsDescending(x, s);
      } else {
        InsertDescSorted(x, s[1..]);
        var t := InsertDesc(x, s[1..]);
        forall j | 0 <= j < |t| ensures !LexLess(s[0], t[j]) {
          assert t[j] in multiset(t);
          if t[j] != x {
            assert t[j] in s[1..];
            var k :| 0 <= k < |s[1..]| && s[1..][k] == t[j];
            assert s[k + 1] == t[j];
          }
        }
        ConsDescending(s[0], t);
      }
    }
  }

  /** A descending list stays descending under a head no smaller than any of its elements. */
  lemma ConsDescending(y: string, t: seq<string>)
    requires Descending(t)
    requires forall j :: 0 <= j < |t| ==> !LexLess(y, t[j])
    ensures Descending([y] + t)
  {
    var r := [y] + t;
    forall i, j | 0 <= i < j < |r| ensures !LexLess(r[i], r[j]) {
      assert r[j] == t[j - 1];
      if i > 0 {
        assert r[i] == t[i - 1];
      }
    }
  }

  /** `names.sort().reverse()` */
  function SortDesc(s: seq<string>): (r: seq<string>)
    ensures multiset(r) == multiset(s)
    ensures Descending(r)
  {
    if s == [] then []
    else
      assert s == [s[0]] + s[1..];
      InsertDescSorted(s[0], SortDesc(s[1..]));
      InsertDesc(s[0], SortDesc(s[1..]))
  }

  // ---------------------------------------------------------------------------
  // Backup names

  /** The names the retention rule looks at. */
  predicate IsBackup(name: string) {
    StartsWith(name, "backup_") && EndsWith(name, ".json")
  }

  /** `readdirSync(dir).filter(...)` */
  function Matching(entries: seq<string>): (r: seq<string>)
    ensures forall x :: x in r <==> x in entries && IsBackup(x)
  {
    if entries == [] then []
    else
      var init, x := entries[..|entries| - 1], entries[|entries| - 1];
      assert entries == init + [x];
      if IsBackup(x) then Matching(init) + [x] else Matching(init)
  }

  /** The names a list holds. */
  function Names(s: seq<string>): set<string> {
    set x | x in s
  }

  /** The names `backups.slice(10)` unlinks. */
  function Excess(entries: seq<string>): (r: seq<string>)
  {
    var sorted := SortDesc(Matching(entries));
    if |sorted| > 10 then sorted[10..] else []
  }

  /** The entries with the names in `gone` removed. */
  function Without(entries: seq<string>, gone: set<string>): (r: seq<string>)
    ensures forall x :: x in r <==> x in entries && x !in gone
    ensures SubseqOf(r, entries)
  {
    if entries == [] then []
    else
      var init, x := entries[..|entries| - 1], entries[|entries| - 1];
      assert entries == init + [x];
      var rest := Without(init, gone);
      if x in gone then
        SubseqExtend(rest, init, x);
        rest
      else
        SubseqBoth(rest, init, x);
        rest + [x]
  }

  lemma {:induction false} WithoutTwice(entries: seq<string>, a: set<string>, b: set<string>)
    ensures Without(Without(entries, a), b) == Without(entries, a + b)
    decreases |entries|
  {
    if entries != [] {
      var init, x := entries[..|entries| - 1], entries[|entries| - 1];
      WithoutTwice(init, a, b);
      var r := Without(init, a);
      if x !in a {
        assert (r + [x])[..|r|] == r;
      }
    }
  }

  lemma {:induction false} WithoutNothing(entries: seq<string>)
    ensures Without(entries, {}) == entries
    decreases |entries|
  {
    if entries != [] {
      WithoutNothing(entries[..|entries| - 1]);
    }
  }

  /** The directory after the retention step. */
  function Retained(entries: seq<string>): (r: seq<string>)
  {
    Without(entries, Names(Excess(entries)))
  }

  /** Only backup names are unlinked. */
  lemma ExcessAreBackups(entries: seq<string>)
    ensures forall y :: y in Excess(entries) ==> y in entries && IsBackup(y)
  {
    var sorted := SortDesc(Matching(entries));
    forall y | y in Excess(entries) ensures y in entries && IsBackup(y) {
      assert y in multiset(sorted);
    }
  }

  /** Pruning never deletes a name that is not a backup. */
  lemma RetainedKeepsOthers(entries: seq<string>, x: string)
    requires x in entries && !IsBackup(x)
    ensures x in Retained(entries)
  {
    ExcessAreBackups(entries);
  }

  /** With ten backups or fewer nothing is deleted. */
  lemma RetainedFew(entries: seq<string>)
    requires |Matching(entries)| <= 10
    ensures Retained(entries) == entries
  {
    assert |SortDesc(Matching(entries))| == |Matching(entries)| by {
      assert |multiset(SortDesc(Matching(entries)))| == |multiset(Matching(entries))|;
    }
    assert (Names(Excess(entries))) == {};
    WithoutNothing(entries);
  }

  /** Every backup that survives is among the ten greatest: no deleted backup is greater
      than a surviving one. */
  lemma RetainedGreatest(entries: seq<string>, kept: string, gone: string)
    requires kept in Retained(entries) && IsBackup(kept)
    requires gone in entries && IsBackup(gone) && gone !in Retained(entries)
    ensures !LexLess(kept, gone)
  {
    var sorted := SortDesc(Matching(entries));
    assert kept in multiset(sorted);
    var i :| 0 <= i < |sorted| && sorted[i] == kept;
    assert gone in Excess(entries);
    var j :| 10 <= j < |sorted| && sorted[j] == gone;
  }

  lemma {:induction false} SetOfSeqSize(s: seq<string>)
    ensures |set x | x in s| <= |s|
    decreases |s|
  {
    if s != [] {
      var init := s[..|s| - 1];
      SetOfSeqSize(init);
      assert (set x | x in s) == (set x | x in init) + {s[|s| - 1]};
    }
  }

  /** At most ten backup names remain. */
  lemma RetainedAtMostTen(entries: seq<string>)
    ensures |set x | x in Retained(entries) && IsBackup(x)| <= 10
  {
    var top := TopTen(entries);
    var kept := set x | x in Retained(entries) && IsBackup(x);
    forall x | x in kept ensures x in Names(top) {
      KeptAmongTen(entries, x);
    }
    SetOfSeqSize(top);
    SubsetSize(kept, Names(top));
  }

  /** The ten greatest backup names, or all of them when there are fewer. */
  function TopTen(entries: seq<string>): (r: seq<string>)
    ensures |r| <= 10
  {
    var sorted := SortDesc(Matching(entries));
    if |sorted| > 10 then sorted[..10] else sorted
  }

  /** A backup that survives is among the ten greatest. */
  lemma KeptAmongTen(entries: seq<string>, x: string)
    requires x in Retained(entries) && IsBackup(x)
    ensures x in TopTen(entries)
  {
    var sorted := SortDesc(Matching(entries));
    ExcessTail(entries);
    assert x in multiset(sorted);
    var i :| 0 <= i < |sorted| && sorted[i] == x;
    assert TopTen(entries)[i] == x;
  }

  /** The names past the tenth of the sorted backups are the ones unlinked. */
  lemma ExcessTail(entries: seq<string>)
    ensures var sorted := SortDesc(Matching(entries));
            forall k :: 10 <= k < |sorted| ==> sorted[k] in Names(Excess(entries))
  {
    var sorted := SortDesc(Matching(entries));
    forall k | 10 <= k < |sorted| ensures sorted[k] in Names(Excess(entries)) {
      assert sorted[10..][k - 10] == sorted[k];
    }
  }

  lemma {:induction false} SubsetSize(a: set<string>, b: set<string>)
    requires a <= b
    ensures |a| <= |b|
    decreases |b|
  {
    if a != {} {
      var x :| x in a;
      SubsetSize(a - {x}, b - {x});
    }
  }

  // ---------------------------------------------------------------------------
  // The handler

  /** The data directory: whether `financas.json` exists, and the entries of `backups/`
      (an absent directory has none). */
  class DataDir {
    var temDados: bool
    var backups: seq<string>

    constructor (temDados: bool, backups: seq<string>)
      ensures this.temDados == temDados && this.backups == backups
    {
      this.temDados, this.backups := temDados, backups;
    }
  }

  datatype BackupResult = NoData | Created(backupFile: string)

  /** The name of the copy: `backup_<ISO time with ':' and '.' replaced by '-'>.json`. */
  function BackupName(isoAgora: string): (r: string)
    ensures |r| == |isoAgora| + 12 && IsBackup(r)
    ensures ':' !in r[7..|r| - 5] && '.' !in r[7..|r| - 5]
  {
    var stamp := ReplaceAll(ReplaceAll(isoAgora, ':', '-'), '.', '-');
    var r := "backup_" + stamp + ".json";
    assert r[..7] == "backup_" && r[|r| - 5..] == ".json" && r[7..|r| - 5] == stamp;
    r
  }

  /** The directory after `copyFileSync`: the copy is added, or overwrites a file of the
      same name. */
  function WithCopy(entries: seq<string>, name: string): (r: seq<string>)
    ensures name in r && forall x :: x in r <==> x in entries || x == name
  {
    if name in entries then entries else entries + [name]
  }

  /** `files.forEach(file => fs.unlinkSync(...))` */
  method Unlink(d: DataDir, files: seq<string>)
    modifies d
    ensures d.backups == Without(old(d.backups), Names(files))
    ensures d.temDados == old(d.temDados)
  {
    ghost var before := d.backups;
    WithoutNothing(before);
    assert Names(files[..0]) == {};
    var i := 0;
    while i < |files|
      invariant 0 <= i <= |files|
      invariant d.backups == Without(before, Names(files[..i]))
      invariant d.temDados == old(d.temDados)
    {
      WithoutTwice(before, Names(files[..i]), {files[i]});
      assert Names(files[..i + 1]) == Names(files[..i]) + {files[i]} by {
        assert files[..i + 1] == files[..i] + [files[i]];
      }
      d.backups := Without(d.backups, {files[i]});
      i := i + 1;
    }
    assert files[..i] == files;
  }

  /** criar-backup: without a data file nothing is created; otherwise the copy is made and
      the backups past the tenth greatest are unlinked. */
  method CriarBackup(d: DataDir, isoAgora: string) returns (r: BackupResult)
    modifies d
    ensures !old(d.temDados) ==> r == NoData && d.backups == old(d.backups)
    ensures old(d.temDados) ==> r == Created(BackupName(isoAgora))
                                && d.backups == Retained(WithCopy(old(d.backups), BackupName(isoAgora)))
    ensures d.temDados == old(d.temDados)
  {
    if !d.temDados {
      return NoData;
    }
    var backupFile := BackupName(isoAgora);
    d.backups := WithCopy(d.backups, backupFile);
    ghost var copied := d.backups;
    var backups := SortDesc(Matching(d.backups));
    assert Excess(copied) == if |backups| > 10 then backups[10..] else [];
    if |backups| > 10 {
      Unlink(d, backups[10..]);
    } else {
      assert Names([]) == {};
      WithoutNothing(d.backups);
    }
    r := Created(backupFile);
  }

  /** The copy just made survives the pruning whenever its name is greater than every
      other backup name in the directory. */
  lemma NewestSurvives(entries: seq<string>, isoAgora: string)
    requires forall x :: x in entries && IsBackup(x) ==> LexLess(x, BackupName(isoAgora))
    ensures BackupName(isoAgora) in Retained(WithCopy(entries, BackupName(isoAgora)))
  {
    var name := BackupName(isoAgora);
    LexAsymmetric(name, name);
    assert name !in entries;
    var all := entries + [name];
    assert WithCopy(entries, name) == all;
    assert all[..|all| - 1] == entries;
    var m := Matching(all);
    assert m == Matching(entries) + [name];
    assert multiset(m)[name] == 1;
    var sorted := SortDesc(m);
    assert name in multiset(sorted);
    assert sorted == [sorted[0]] + sorted[1..];
    forall x | x in sorted ensures x == name || LexLess(x, name) {
      assert x in multiset(m);
    }
    GreatestFirst(sorted, name);
    assert multiset(sorted[1..])[name] == 0;
    assert name !in sorted[1..];
    assert name !in Excess(all);
  }

  /** In a descending list, an element no other element exceeds comes first. */
  lemma GreatestFirst(sorted: seq<string>, name: string)
    requires Descending(sorted) && name in sorted
    requires forall x :: x in sorted ==> x == name || LexLess(x, name)
    ensures sorted[0] == name
  {
    var j :| 0 <= j < |sorted| && sorted[j] == name;
    if j > 0 {
      assert !LexLess(sorted[0], sorted[j]);
    }
  }
}
