/** The extra-cruises seed script: three cruise tours, each inserted only when
    its id is absent, with the same loop as the base seed. */
module SeedCruises {
  import opened Options
  import opened ToursRoute
  import Seed
  import Tables
  import Seqs
  import Cruises
  import TourGrid

  const CruiseSeeds: seq<Seed.SeedTour> := [
    Seed.SeedTour("20", "3-Night Aswan to Luxor Cruise",
      "A shorter but equally mesmerizing journey. Perfect for those with limited time who still want to see the key highlights like Philae Temple and Kom Ombo.",
      450, "4 Days", "https://images.unsplash.com/photo-1599108600124-b6389f913d8c?q=80&w=800&auto=format&fit=crop",
      "Nile Cruises", 47, 215, ["Classic", "Nile", "Aswan"]),
    Seed.SeedTour("21", "Luxury Dahabiya Sailing Experience",
      "Sail the Nile on a traditional Dahabiya yacht. This intimate experience avoids the crowds and accesses smaller islands and villages larger ships cannot reach.",
      950, "6 Days", "https://images.unsplash.com/photo-1560130958-809099863219?q=80&w=800&auto=format&fit=crop",
      "Luxury Nile Cruises", 49, 89, ["Luxury", "Private", "Yacht"]),
    Seed.SeedTour("22", "Long Cruise: Cairo to Aswan",
      "The ultimate 12-day expedition following the full path of the Nile from Cairo to the heart of Nubia. A once-in-a-lifetime historical odyssey.",
      1800, "12 Days", "https://images.unsplash.com/photo-1626014902263-12a149f1f00a?q=80&w=800&auto=format&fit=crop",
      "Royal Nile Cruises", 50, 42, ["Expedition", "Full River", "Exclusive"])
  ]

  const CruiseRows: seq<TourRow> := Seqs.Map(CruiseSeeds, Seed.Row)

  const CruiseIds: seq<string> := ["20", "21", "22"]

  lemma CruiseIdsInOrder()
    ensures |CruiseSeeds| == |CruiseIds|
    ensures forall i :: 0 <= i < |CruiseSeeds| ==> Seed.SeedId(CruiseSeeds[i]) == CruiseIds[i]
  {
  }

  /** The cruise ids are '20', '21' and '22', one tour each. */
  lemma CruiseSeedIds()
    ensures Tables.Keys(CruiseSeeds, Seed.SeedId) == {"20", "21", "22"}
    ensures Tables.UniqueKeys(CruiseSeeds, Seed.SeedId)
  {
    CruiseIdsInOrder();
    forall i, j | 0 <= i < j < |CruiseIds| ensures CruiseIds[i] != CruiseIds[j] {
      assert CruiseIds[i][1] != CruiseIds[j][1];
    }
    var keys := Tables.Keys(CruiseSeeds, Seed.SeedId);
    forall x | x in keys ensures x in {"20", "21", "22"} {
      var i :| 0 <= i < |CruiseSeeds| && Seed.SeedId(CruiseSeeds[i]) == x;
      assert CruiseIds[i] == x;
    }
    forall i | 0 <= i < |CruiseIds| ensures CruiseIds[i] in keys {
      assert Seed.SeedId(CruiseSeeds[i]) == CruiseIds[i];
    }
    assert CruiseIds[0] in keys && CruiseIds[1] in keys && CruiseIds[2] in keys;
  }

  lemma CruiseRowIds()
    ensures Tables.Keys(CruiseRows, RowId) == {"20", "21", "22"}
    ensures Tables.UniqueKeys(CruiseRows, RowId)
  {
    CruiseSeedIds();
    Seed.RowIds(CruiseSeeds);
  }

  lemma IdsDisjoint()
    ensures {"1", "2", "3", "4", "5", "6"} !! {"20", "21", "22"}
  {
    var a: set<string> := {"1", "2", "3", "4", "5", "6"};
    forall x | x in a ensures |x| == 1 { }
  }

  /** `main`: the seed loop over the cruises. */
  method Run(table: TourTable)
    requires table.Valid()
    modifies table
    ensures table.Valid()
    ensures table.rows == Tables.InsertAllAbsent(old(table.rows), RowId, CruiseRows)
  {
    Seed.SeedTours(table, CruiseRows);
  }

  /** After a run the three cruises are present; a second run changes
      nothing. */
  lemma RunPresentAndIdempotent(rows: seq<TourRow>)
    ensures Tables.Keys(Tables.InsertAllAbsent(rows, RowId, CruiseRows), RowId) == Tables.Keys(rows, RowId) + {"20", "21", "22"}
    ensures var once := Tables.InsertAllAbsent(rows, RowId, CruiseRows);
      Tables.InsertAllAbsent(once, RowId, CruiseRows) == once
  {
    CruiseRowIds();
    Tables.InsertAllAbsentKeys(rows, RowId, CruiseRows);
    Tables.InsertAllAbsentIdempotent(rows, RowId, CruiseRows);
  }

  /** The cruise ids are not base-seed ids, so running the two seeds in
      either order leaves the same rows, and the later one appends exactly
      what it would have appended alone. */
  lemma SeedsCommute(rows: seq<TourRow>)
    ensures multiset(Tables.InsertAllAbsent(Tables.InsertAllAbsent(rows, RowId, Seed.Tours), RowId, CruiseRows))
         == multiset(Tables.InsertAllAbsent(Tables.InsertAllAbsent(rows, RowId, CruiseRows), RowId, Seed.Tours))
    ensures var base := Tables.InsertAllAbsent(rows, RowId, Seed.Tours);
      Tables.InsertAllAbsent(base, RowId, CruiseRows) == base + Tables.InsertAllAbsent(rows, RowId, CruiseRows)[|rows|..]
  {
    Seed.SeedRowIds();
    CruiseRowIds();
    IdsDisjoint();
    Tables.SeedsCommute(rows, RowId, Seed.Tours, CruiseRows);
    Tables.ExtendedBySeed(rows, RowId, Seed.Tours, CruiseRows);
  }

  /** All three cruise categories pass the cruises page's filter. */
  lemma CruiseCategoriesPassFilter()
    ensures forall i :: 0 <= i < |CruiseSeeds| ==> Cruises.IsCruise(CruiseSeeds[i].category)
  {
    CruiseCategoryNames();
    Cruises.CruiseCategoriesPass();
  }

  /** Only the first cruise category is a value of the category enumeration,
      so the category grid never offers the other two. */
  lemma OnlyNileCruisesIsCategory()
    ensures CruiseSeeds[0].category in TourGrid.Categories
    ensures forall i :: 1 <= i < |CruiseSeeds| ==> CruiseSeeds[i].category !in TourGrid.Categories
  {
    CruiseCategoryNames();
    assert TourGrid.Categories[1] == "Nile Cruises";
    CategoryAbsent("Luxury Nile Cruises");
    CategoryAbsent("Royal Nile Cruises");
  }

  lemma CruiseCategoryNames()
    ensures |CruiseSeeds| == 3
    ensures CruiseSeeds[0].category == "Nile Cruises"
    ensures CruiseSeeds[1].category == "Luxury Nile Cruises"
    ensures CruiseSeeds[2].category == "Royal Nile Cruises"
  {
  }

  lemma CategoryAbsent(c: string)
    requires c == "Luxury Nile Cruises" || c == "Royal Nile Cruises"
    ensures c !in TourGrid.Categories
  {
    forall j | 0 <= j < |TourGrid.Categories| ensures TourGrid.Categories[j] != c {
      if |TourGrid.Categories[j]| == |c| {
        assert TourGrid.Categories[j][0] != c[0];
      }
    }
  }
}
