/** The destinations seed script: five destinations, each created only when
    no destination has its slug; the store generates each new id. */
module SeedDestinations {
  import opened DestinationsRoute
  import Tables

  /** The slugs and names of the five seed destinations, in script order. */
  const SeedSlugs: seq<string> := ["cairo", "luxor", "aswan", "hurghada", "alexandria"]
  const SeedNames: seq<string> := ["Cairo", "Luxor", "Aswan", "Hurghada", "Alexandria"]

  /** The script's list: the five destinations with their slugs and names. */
  predicate IsSeedList(seeds: seq<NewDestination>)
  {
    |seeds| == |SeedSlugs|
    && forall i :: 0 <= i < |seeds| ==> seeds[i].slug == SeedSlugs[i] && seeds[i].name == SeedNames[i]
  }

  /** The five seed slugs are pairwise distinct. */
  lemma SeedSlugsDistinct()
    ensures forall i, j :: 0 <= i < j < |SeedSlugs| ==> SeedSlugs[i] != SeedSlugs[j]
  {
    forall i, j | 0 <= i < j < |SeedSlugs| ensures SeedSlugs[i] != SeedSlugs[j] {
      if |SeedSlugs[i]| == |SeedSlugs[j]| {
        assert SeedSlugs[i][0] != SeedSlugs[j][0];
      }
    }
  }

  /** The rows `create` would store: each seed with its generated id. */
  function WithIds(seeds: seq<NewDestination>, ids: seq<string>): (r: seq<Destination>)
    requires |ids| == |seeds|
    ensures |r| == |seeds|
    ensures forall i :: 0 <= i < |r| ==> r[i].id == ids[i] && r[i].slug == seeds[i].slug
    ensures Tables.Keys(r, Slug) == set i | 0 <= i < |seeds| :: seeds[i].slug
  {
    var r := seq(|seeds|, i requires 0 <= i < |seeds| =>
      var s := seeds[i];
      Destination(ids[i], s.slug, s.name, s.description, s.image, s.headerImage, s.content));
    assert forall i :: 0 <= i < |r| ==> Slug(r[i]) == seeds[i].slug;
    r
  }

  /** The `for` loop: a destination is created only when its slug is absent;
      `ids` are the ids the store generates, fresh and distinct. */
  method Run(table: DestinationTable, seeds: seq<NewDestination>, ids: seq<string>)
    requires table.Valid()
    requires |ids| == |seeds|
    requires forall i, j :: 0 <= i < j < |ids| ==> ids[i] != ids[j]
    requires forall i :: 0 <= i < |ids| ==> ids[i] !in Tables.Keys(table.rows, Id)
    modifies table
    ensures table.Valid()
    ensures table.rows == Tables.InsertAllAbsent(old(table.rows), Slug, WithIds(seeds, ids))
  {
    var rows := WithIds(seeds, ids);
    var i := 0;
    while i < |rows|
      invariant 0 <= i <= |rows|
      invariant table.Valid()
      invariant forall k :: 0 <= k < |table.rows| ==>
        table.rows[k].id in Tables.Keys(old(table.rows), Id) || exists j :: 0 <= j < i && ids[j] == table.rows[k].id
      invariant Tables.InsertAllAbsent(table.rows, Slug, rows[i..]) == Tables.InsertAllAbsent(old(table.rows), Slug, rows)
    {
      assert rows[i..][0] == rows[i] && rows[i..][1..] == rows[i + 1..];
      var d := rows[i];
      if d.slug !in Tables.Keys(table.rows, Slug) {
        forall k | 0 <= k < |table.rows| ensures table.rows[k].slug != d.slug && table.rows[k].id != d.id {
          assert Slug(table.rows[k]) in Tables.Keys(table.rows, Slug);
        }
        table.rows := table.rows + [d];
      }
      i := i + 1;
    }
  }

  /** After a run every seed slug is present; rows that were there are
      kept unchanged, and each new row is a seed whose slug was absent. */
  lemma RunPresent(rows: seq<Destination>, seeds: seq<NewDestination>, ids: seq<string>)
    requires |ids| == |seeds|
    ensures var r := Tables.InsertAllAbsent(rows, Slug, WithIds(seeds, ids));
      Tables.Keys(r, Slug) == Tables.Keys(rows, Slug) + (set i | 0 <= i < |seeds| :: seeds[i].slug)
      && |rows| <= |r| && r[..|rows|] == rows
      && forall k :: |rows| <= k < |r| ==> r[k] in WithIds(seeds, ids) && r[k].slug !in Tables.Keys(rows, Slug)
  {
    var w := WithIds(seeds, ids);
    var r := Tables.InsertAllAbsent(rows, Slug, w);
    Tables.InsertAllAbsentKeys(rows, Slug, w);
    Tables.InsertAllAbsentAppends(rows, Slug, w);
    Tables.AddedKeys(rows, Slug, w);
    assert r == rows + r[|rows|..];
    forall k | |rows| <= k < |r| ensures r[k].slug !in Tables.Keys(rows, Slug) {
      if r[k].slug in Tables.Keys(rows, Slug) {
        NewRowsHaveNewSlugs(rows, w);
        assert false;
      }
    }
  }

  /** After a run of the script's own list, each of the five slugs names a destination. */
  lemma SeedListPresent(rows: seq<Destination>, seeds: seq<NewDestination>, ids: seq<string>)
    requires IsSeedList(seeds) && |ids| == |seeds|
    ensures forall i :: 0 <= i < |SeedSlugs| ==>
      SeedSlugs[i] in Tables.Keys(Tables.InsertAllAbsent(rows, Slug, WithIds(seeds, ids)), Slug)
  {
    RunPresent(rows, seeds, ids);
    forall i | 0 <= i < |SeedSlugs|
      ensures SeedSlugs[i] in Tables.Keys(Tables.InsertAllAbsent(rows, Slug, WithIds(seeds, ids)), Slug)
    {
      assert seeds[i].slug == SeedSlugs[i];
    }
  }

  lemma {:induction false} NewRowsHaveNewSlugs(rows: seq<Destination>, seeds: seq<Destination>)
    ensures var r := Tables.InsertAllAbsent(rows, Slug, seeds);
      forall k :: |rows| <= k < |r| ==> r[k].slug !in Tables.Keys(rows, Slug)
    decreases |seeds|
  {
    if seeds != [] {
      var next := Tables.InsertIfAbsent(rows, Slug, seeds[0]);
      NewRowsHaveNewSlugs(next, seeds[1..]);
      var r := Tables.InsertAllAbsent(rows, Slug, seeds);
      assert r == Tables.InsertAllAbsent(next, Slug, seeds[1..]);
      assert next[..|rows|] == rows;
      forall k | |rows| <= k < |r| ensures r[k].slug !in Tables.Keys(rows, Slug) {
        if k >= |next| {
          assert Tables.Keys(rows, Slug) <= Tables.Keys(next, Slug) by {
            forall x | x in Tables.Keys(rows, Slug) ensures x in Tables.Keys(next, Slug) {
              var j :| 0 <= j < |rows| && Slug(rows[j]) == x;
              assert Slug(next[j]) == x;
            }
          }
        } else {
          assert r[k] == next[k] == seeds[0];
        }
      }
    }
  }

  /** A second run, whatever ids the store would generate, changes nothing. */
  lemma RunTwiceSameAsOnce(rows: seq<Destination>, seeds: seq<NewDestination>, ids: seq<string>, secondIds: seq<string>)
    requires |ids| == |seeds| == |secondIds|
    ensures var once := Tables.InsertAllAbsent(rows, Slug, WithIds(seeds, ids));
      Tables.InsertAllAbsent(once, Slug, WithIds(seeds, secondIds)) == once
  {
    var once := Tables.InsertAllAbsent(rows, Slug, WithIds(seeds, ids));
    Tables.InsertAllAbsentKeys(rows, Slug, WithIds(seeds, ids));
    Tables.InsertAllAbsentPresent(once, Slug, WithIds(seeds, secondIds));
  }
}
