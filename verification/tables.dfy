/** Database tables as sequences of rows, each row identified by a key
    (a Prisma `@id` or `@unique` column). A lookup by key is the first row
    with that key; the seed scripts insert a row only when its key is absent. */
module Tables {
  import opened Options
  import Seqs

  /** The keys present in `rows`. */
  function Keys<R, K>(rows: seq<R>, key: R -> K): set<K>
  {
    set i | 0 <= i < |rows| :: key(rows[i])
  }

  /** No two rows share a key (the uniqueness constraint of the column). */
  predicate UniqueKeys<R, K(==)>(rows: seq<R>, key: R -> K)
  {
    forall i, j :: 0 <= i < j < |rows| ==> key(rows[i]) != key(rows[j])
  }

  /** `findUnique` / `findFirst`: the index of the first row with key `k`. */
  function Find<R, K(==)>(rows: seq<R>, key: R -> K, k: K): (r: Option<nat>)
    ensures r.Some? ==> r.value < |rows| && key(rows[r.value]) == k
    ensures r.Some? ==> forall j :: 0 <= j < r.value ==> key(rows[j]) != k
    ensures r.None? <==> k !in Keys(rows, key)
  {
    if rows == [] then None
    else if key(rows[0]) == k then Some(0)
    else
      match Find(rows[1..], key, k)
      case None =>
        assert Keys(rows, key) == {key(rows[0])} + Keys(rows[1..], key) by {
          forall x | x in Keys(rows, key) ensures x in {key(rows[0])} + Keys(rows[1..], key) {
            var i :| 0 <= i < |rows| && key(rows[i]) == x;
            if i > 0 { assert key(rows[1..][i - 1]) == x; }
          }
        }
        None
      case Some(i) => Some(i + 1)
  }

  /** `findFirst({where})`: the index of the first row satisfying `p`. */
  function FindFirst<R>(rows: seq<R>, p: R -> bool): (r: Option<nat>)
    ensures r.Some? ==> r.value < |rows| && p(rows[r.value])
    ensures r.Some? ==> forall j :: 0 <= j < r.value ==> !p(rows[j])
    ensures r.None? <==> forall j :: 0 <= j < |rows| ==> !p(rows[j])
  {
    if rows == [] then None
    else if p(rows[0]) then Some(0)
    else
      match FindFirst(rows[1..], p)
      case None =>
        assert forall j :: 1 <= j < |rows| ==> rows[j] == rows[1..][j - 1];
        None
      case Some(i) => Some(i + 1)
  }

  /** Insert `row` unless a row with its key already exists (a seed step). */
  function InsertIfAbsent<R, K(==)>(rows: seq<R>, key: R -> K, row: R): (r: seq<R>)
    ensures key(row) in Keys(rows, key) ==> r == rows
    ensures key(row) !in Keys(rows, key) ==> r == rows + [row]
  {
    if key(row) in Keys(rows, key) then rows else rows + [row]
  }

  /** The seed loop: `InsertIfAbsent` for every seed row, in order. */
  function InsertAllAbsent<R, K(==)>(rows: seq<R>, key: R -> K, seeds: seq<R>): (r: seq<R>)
    ensures |rows| <= |r| && r[..|rows|] == rows
    decreases |seeds|
  {
    if seeds == [] then rows
    else InsertAllAbsent(InsertIfAbsent(rows, key, seeds[0]), key, seeds[1..])
  }

  lemma KeysAppend<R, K>(rows: seq<R>, key: R -> K, row: R)
    ensures Keys(rows + [row], key) == Keys(rows, key) + {key(row)}
  {
    var t := rows + [row];
    forall x | x in Keys(t, key) ensures x in Keys(rows, key) + {key(row)} {
      var i :| 0 <= i < |t| && key(t[i]) == x;
      if i < |rows| { assert t[i] == rows[i]; }
    }
    forall x | x in Keys(rows, key) ensures x in Keys(t, key) {
      var i :| 0 <= i < |rows| && key(rows[i]) == x;
      assert t[i] == rows[i];
    }
    assert t[|rows|] == row;
  }

  lemma KeysConcat<R, K>(a: seq<R>, b: seq<R>, key: R -> K)
    ensures Keys(a + b, key) == Keys(a, key) + Keys(b, key)
  {
    var t := a + b;
    forall x | x in Keys(t, key) ensures x in Keys(a, key) + Keys(b, key) {
      var i :| 0 <= i < |t| && key(t[i]) == x;
      if i < |a| { assert t[i] == a[i]; } else { assert t[i] == b[i - |a|]; }
    }
    forall x | x in Keys(a, key) + Keys(b, key) ensures x in Keys(t, key) {
      if x in Keys(a, key) {
        var i :| 0 <= i < |a| && key(a[i]) == x;
        assert t[i] == a[i];
      } else {
        var i :| 0 <= i < |b| && key(b[i]) == x;
        assert t[|a| + i] == b[i];
      }
    }
  }

  /** Seeding only appends: the existing rows are kept, unchanged and in order,
      and every appended row is one of the seeds. */
  lemma {:induction false} InsertAllAbsentAppends<R, K>(rows: seq<R>, key: R -> K, seeds: seq<R>)
    ensures forall i :: |rows| <= i < |InsertAllAbsent(rows, key, seeds)| ==>
      InsertAllAbsent(rows, key, seeds)[i] in seeds
    decreases |seeds|
  {
    if seeds != [] {
      var next := InsertIfAbsent(rows, key, seeds[0]);
      InsertAllAbsentAppends(next, key, seeds[1..]);
      var r := InsertAllAbsent(rows, key, seeds);
      forall i | |rows| <= i < |r| ensures r[i] in seeds {
        if i >= |next| {
          assert r == InsertAllAbsent(next, key, seeds[1..]);
          assert r[i] in seeds[1..];
          var j :| 0 <= j < |seeds[1..]| && seeds[1..][j] == r[i];
          assert seeds[j + 1] == r[i];
        } else {
          assert r[i] == next[i] == seeds[0];
        }
      }
    }
  }

  /** After seeding, the key of every seed row is present, and no other key was added. */
  lemma {:induction false} InsertAllAbsentKeys<R, K>(rows: seq<R>, key: R -> K, seeds: seq<R>)
    ensures Keys(InsertAllAbsent(rows, key, seeds), key) == Keys(rows, key) + Keys(seeds, key)
    decreases |seeds|
  {
    if seeds != [] {
      var next := InsertIfAbsent(rows, key, seeds[0]);
      KeysAppend(rows, key, seeds[0]);
      InsertAllAbsentKeys(next, key, seeds[1..]);
      assert seeds == [seeds[0]] + seeds[1..];
      KeysConcat([seeds[0]], seeds[1..], key);
      assert Keys([seeds[0]], key) == {key(seeds[0])} by {
        assert [seeds[0]][0] == seeds[0];
      }
    }
  }

  /** Seeding a table that already holds every seed key changes nothing. */
  lemma {:induction false} InsertAllAbsentPresent<R, K>(rows: seq<R>, key: R -> K, seeds: seq<R>)
    requires Keys(seeds, key) <= Keys(rows, key)
    ensures InsertAllAbsent(rows, key, seeds) == rows
    decreases |seeds|
  {
    if seeds != [] {
      assert key(seeds[0]) in Keys(seeds, key);
      assert Keys(seeds[1..], key) <= Keys(seeds, key) by {
        forall x | x in Keys(seeds[1..], key) ensures x in Keys(seeds, key) {
          var i :| 0 <= i < |seeds[1..]| && key(seeds[1..][i]) == x;
          assert seeds[i + 1] == seeds[1..][i];
        }
      }
      InsertAllAbsentPresent(rows, key, seeds[1..]);
    }
  }

  /** Running a seed twice leaves the same table as running it once. */
  lemma InsertAllAbsentIdempotent<R, K>(rows: seq<R>, key: R -> K, seeds: seq<R>)
    ensures InsertAllAbsent(InsertAllAbsent(rows, key, seeds), key, seeds)
         == InsertAllAbsent(rows, key, seeds)
  {
    InsertAllAbsentKeys(rows, key, seeds);
    InsertAllAbsentPresent(InsertAllAbsent(rows, key, seeds), key, seeds);
  }

  /** One step of a seed keeps two tables agreeing on the keys the rest of the seed uses. */
  lemma {:induction false} AgreementStep<R, K>(u: seq<R>, v: seq<R>, key: R -> K, seeds: seq<R>)
    requires seeds != []
    requires Keys(u, key) * Keys(seeds, key) == Keys(v, key) * Keys(seeds, key)
    ensures key(seeds[0]) in Keys(u, key) <==> key(seeds[0]) in Keys(v, key)
    ensures Keys(InsertIfAbsent(u, key, seeds[0]), key) * Keys(seeds[1..], key)
         == Keys(InsertIfAbsent(v, key, seeds[0]), key) * Keys(seeds[1..], key)
  {
    var s, rest := seeds[0], seeds[1..];
    var ks, kr := Keys(seeds, key), Keys(rest, key);
    assert key(s) in ks by { assert seeds[0] == s; }
    assert kr <= ks by {
      forall x | x in kr ensures x in ks {
        var i :| 0 <= i < |rest| && key(rest[i]) == x;
        assert seeds[i + 1] == rest[i];
      }
    }
    assert key(s) in Keys(u, key) <==> key(s) in Keys(u, key) * ks;
    assert key(s) in Keys(v, key) <==> key(s) in Keys(v, key) * ks;
    assert Keys(u, key) * kr == Keys(v, key) * kr by {
      assert Keys(u, key) * kr == (Keys(u, key) * ks) * kr;
      assert Keys(v, key) * kr == (Keys(v, key) * ks) * kr;
    }
    if key(s) !in Keys(u, key) {
      KeysAppend(u, key, s);
      KeysAppend(v, key, s);
      assert Keys(u + [s], key) * kr == Keys(u, key) * kr + {key(s)} * kr;
      assert Keys(v + [s], key) * kr == Keys(v, key) * kr + {key(s)} * kr;
    }
  }

  /** What a seed appends: what its first step appends, then what the rest appends. */
  lemma AppendedSplit<R, K>(u: seq<R>, key: R -> K, seeds: seq<R>)
    requires seeds != []
    ensures var u' := InsertIfAbsent(u, key, seeds[0]);
      |u| <= |u'| &&
      InsertAllAbsent(u, key, seeds)[|u|..] == u'[|u|..] + InsertAllAbsent(u', key, seeds[1..])[|u'|..]
  {
    var u' := InsertIfAbsent(u, key, seeds[0]);
    var r := InsertAllAbsent(u', key, seeds[1..]);
    assert InsertAllAbsent(u, key, seeds) == r;
    assert r[..|u'|] == u';
    assert r[|u|..] == r[|u|..|u'|] + r[|u'|..];
  }

  /** The rows a seed appends depend only on which of the seed keys are already present. */
  lemma {:induction false} AddedDependsOnSeedKeys<R, K>(u: seq<R>, v: seq<R>, key: R -> K, seeds: seq<R>)
    requires Keys(u, key) * Keys(seeds, key) == Keys(v, key) * Keys(seeds, key)
    ensures InsertAllAbsent(u, key, seeds)[|u|..] == InsertAllAbsent(v, key, seeds)[|v|..]
    decreases |seeds|
  {
    if seeds != [] {
      AgreementStep(u, v, key, seeds);
      var u' := InsertIfAbsent(u, key, seeds[0]);
      var v' := InsertIfAbsent(v, key, seeds[0]);
      AddedDependsOnSeedKeys(u', v', key, seeds[1..]);
      AppendedSplit(u, key, seeds);
      AppendedSplit(v, key, seeds);
      assert u'[|u|..] == v'[|v|..];
    }
  }

  /** Two seeds whose keys are disjoint commute: either order leaves the same
      rows in the table, up to their order. */
  lemma SeedsCommute<R, K>(rows: seq<R>, key: R -> K, a: seq<R>, b: seq<R>)
    requires Keys(a, key) !! Keys(b, key)
    ensures multiset(InsertAllAbsent(InsertAllAbsent(rows, key, a), key, b))
         == multiset(InsertAllAbsent(InsertAllAbsent(rows, key, b), key, a))
  {
    var ra := InsertAllAbsent(rows, key, a);
    var rb := InsertAllAbsent(rows, key, b);
    var x := ra[|rows|..];
    var y := rb[|rows|..];
    assert ra == rows + x;
    assert rb == rows + y;
    ExtendedBySeed(rows, key, a, b);
    ExtendedBySeed(rows, key, b, a);
    var rab := InsertAllAbsent(ra, key, b);
    var rba := InsertAllAbsent(rb, key, a);
    assert rab == rows + x + y;
    assert rba == rows + y + x;
  }

  /** Seeding `b` after `a` appends what seeding `b` alone would have appended,
      when the two seeds share no key. */
  lemma ExtendedBySeed<R, K>(rows: seq<R>, key: R -> K, a: seq<R>, b: seq<R>)
    requires Keys(a, key) !! Keys(b, key)
    ensures var ra := InsertAllAbsent(rows, key, a);
      InsertAllAbsent(ra, key, b) == ra + InsertAllAbsent(rows, key, b)[|rows|..]
  {
    var ra := InsertAllAbsent(rows, key, a);
    var x := ra[|rows|..];
    assert ra == rows + x;
    AddedKeys(rows, key, a);
    KeysConcat(rows, x, key);
    var kb := Keys(b, key);
    assert Keys(ra, key) * kb == Keys(rows, key) * kb;
    AddedDependsOnSeedKeys(ra, rows, key, b);
    var rab := InsertAllAbsent(ra, key, b);
    assert rab == rab[..|ra|] + rab[|ra|..];
  }

  /** The keys a seed appends are keys of the seed. */
  lemma AddedKeys<R, K>(rows: seq<R>, key: R -> K, seeds: seq<R>)
    ensures |rows| <= |InsertAllAbsent(rows, key, seeds)|
    ensures Keys(InsertAllAbsent(rows, key, seeds)[|rows|..], key) <= Keys(seeds, key)
  {
    InsertAllAbsentAppends(rows, key, seeds);
    var r := InsertAllAbsent(rows, key, seeds);
    forall x | x in Keys(r[|rows|..], key) ensures x in Keys(seeds, key) {
      var i :| 0 <= i < |r[|rows|..]| && key(r[|rows|..][i]) == x;
      assert r[|rows|..][i] == r[|rows| + i];
      assert r[|rows| + i] in seeds;
      var j :| 0 <= j < |seeds| && seeds[j] == r[|rows| + i];
    }
  }

  /** Deleting the row at `i` of a table with unique keys (`delete where key`)
      is the same as keeping every row whose key differs from its key. */
  lemma RemoveAtFilters<R, K>(rows: seq<R>, key: R -> K, i: nat, p: R -> bool)
    requires UniqueKeys(rows, key) && i < |rows|
    requires forall x :: p(x) <==> key(x) != key(rows[i])
    ensures rows[..i] + rows[i + 1..] == Seqs.Filter(rows, p)
  {
    var a, b := rows[..i], rows[i + 1..];
    forall j | 0 <= j < |a| ensures p(a[j]) {
      assert a[j] == rows[j];
    }
    forall j | 0 <= j < |b| ensures p(b[j]) {
      assert b[j] == rows[i + 1 + j];
    }
    assert rows == a + [rows[i]] + b;
    Seqs.FilterDropsOne(a, rows[i], b, p);
  }

  /** Deleting one row keeps the keys unique and removes exactly its key. */
  lemma RemoveAtKeys<R, K>(rows: seq<R>, key: R -> K, i: nat)
    requires UniqueKeys(rows, key) && i < |rows|
    ensures UniqueKeys(rows[..i] + rows[i + 1..], key)
    ensures Keys(rows[..i] + rows[i + 1..], key) == Keys(rows, key) - {key(rows[i])}
  {
    var t := rows[..i] + rows[i + 1..];
    forall j | 0 <= j < |t| ensures t[j] == rows[if j < i then j else j + 1] { }
    forall x | x in Keys(rows, key) - {key(rows[i])} ensures x in Keys(t, key) {
      var j :| 0 <= j < |rows| && key(rows[j]) == x;
      assert t[if j < i then j else j - 1] == rows[j];
    }
  }
}
