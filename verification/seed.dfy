/** The base seed script: the six catalogue tours, each inserted only when
    its id is absent, then the admin user, inserted only when no user has the
    name `admin`. Ratings are in tenths of a star. */
module Seed {
  import opened Options
  import opened ToursRoute
  import AuthRoute
  import Tables
  import TagsJson
  import Seqs

  /** A seed tour as the script writes it, before `JSON.stringify` of its
      tag list. */
  datatype SeedTour = SeedTour(
    id: string, title: string, description: string, price: int, duration: string,
    image: string, category: string, rating: int, reviews: int, tags: seq<string>)

  /** The row `prisma.tour.create` stores for a seed tour. */
  function Row(t: SeedTour): (r: TourRow)
    ensures r.id == t.id && r.category == t.category
    ensures TagsJson.Decode(r.tags) == Some(t.tags)
  {
    TagsJson.DecodeEncode(t.tags);
    TourRow(t.id, t.title, t.description, t.price, t.duration, t.image, t.category,
            t.rating, t.reviews, TagsJson.Encode(t.tags))
  }

  const TourSeeds: seq<SeedTour> := [
    SeedTour("1", "Giza Pyramids & Sphinx Half-Day Tour",
      "Explore the only remaining Wonder of the Ancient World. Professional Egyptologist guide included.",
      45, "4-5 Hours", "https://images.unsplash.com/photo-1503177119275-0aa32b3a9368?q=80&w=800&auto=format&fit=crop",
      "Day Tours", 49, 1250, ["History", "Must See", "Cairo"]),
    SeedTour("2", "5-Day Nile Cruise: Luxor to Aswan",
      "Experience the magic of the Nile on a 5-star cruise ship. Visits to Valley of the Kings and Karnak Temple.",
      650, "5 Days", "https://images.unsplash.com/photo-1544644181-1484b3fdfc62?q=80&w=800&auto=format&fit=crop",
      "Nile Cruises", 48, 430, ["Luxury", "Nile", "Luxor", "Aswan"]),
    SeedTour("3", "Cairo Egyptian Museum & Khan el-Khalili",
      "Dive into the rich history of Tutankhamun and shop in the world-famous bazaar.",
      35, "6 Hours", "https://images.unsplash.com/photo-1572252009286-268acec5ca0a?q=80&w=800&auto=format&fit=crop",
      "Day Tours", 47, 890, ["Culture", "Shopping", "Museum"]),
    SeedTour("4", "Alexandria Shore Excursion",
      "Perfect for cruise passengers. Visit the Citadel of Qaitbay and the Library of Alexandria.",
      95, "8 Hours", "https://images.unsplash.com/photo-1552832230-c0197dd311b5?q=80&w=800&auto=format&fit=crop",
      "Shore Excursions", 49, 156, ["Alexandria", "Seaside", "History"]),
    SeedTour("5", "White Desert Overnight Safari",
      "Sleep under the stars in the surreal landscapes of the Bahariya Oasis.",
      220, "2 Days", "https://images.unsplash.com/photo-1501785888041-af3ef285b470?q=80&w=800&auto=format&fit=crop",
      "Desert Safari", 50, 88, ["Adventure", "Camping", "Nature"]),
    SeedTour("6", "Abu Simbel Private Flight Tour",
      "Fly from Aswan to witness the magnificent sun temples of Ramses II.",
      310, "4 Hours", "https://images.unsplash.com/photo-1568322422622-f321c77acfaf?q=80&w=800&auto=format&fit=crop",
      "Multi-Day Packages", 49, 212, ["Private", "Aswan", "Ancient"])
  ]

  const Tours: seq<TourRow> := Seqs.Map(TourSeeds, Row)

  const AdminName := "admin"

  /** The admin user the script creates; its id is generated by the store. */
  function Admin(id: string): AuthRoute.User
  {
    AuthRoute.User(id, AdminName, "admin123", "ADMIN")
  }

  function SeedId(t: SeedTour): string { t.id }

  /** Storing seed tours as rows keeps their ids. */
  lemma RowIds(seeds: seq<SeedTour>)
    ensures Tables.Keys(Seqs.Map(seeds, Row), RowId) == Tables.Keys(seeds, SeedId)
    ensures Tables.UniqueKeys(seeds, SeedId) ==> Tables.UniqueKeys(Seqs.Map(seeds, Row), RowId)
  {
    var rows := Seqs.Map(seeds, Row);
    assert forall i :: 0 <= i < |rows| ==> RowId(rows[i]) == SeedId(seeds[i]);
    forall x | x in Tables.Keys(seeds, SeedId) ensures x in Tables.Keys(rows, RowId) {
      var i :| 0 <= i < |seeds| && SeedId(seeds[i]) == x;
      assert RowId(rows[i]) == x;
    }
  }

  const TourIds: seq<string> := ["1", "2", "3", "4", "5", "6"]

  lemma SeedIdsInOrder()
    ensures |TourSeeds| == |TourIds|
    ensures forall i :: 0 <= i < |TourSeeds| ==> SeedId(TourSeeds[i]) == TourIds[i]
  {
  }

  lemma TourIdsDistinct()
    ensures forall i, j :: 0 <= i < j < |TourIds| ==> TourIds[i] != TourIds[j]
    ensures (set i | 0 <= i < |TourIds| :: TourIds[i]) == {"1", "2", "3", "4", "5", "6"}
  {
    forall i, j | 0 <= i < j < |TourIds| ensures TourIds[i] != TourIds[j] {
      assert TourIds[i][0] != TourIds[j][0];
    }
    var s := set i | 0 <= i < |TourIds| :: TourIds[i];
    assert TourIds[0] in s && TourIds[1] in s && TourIds[2] in s;
    assert TourIds[3] in s && TourIds[4] in s && TourIds[5] in s;
  }

  /** The seed ids are '1' to '6', one tour each. */
  lemma SeedIds()
    ensures Tables.Keys(TourSeeds, SeedId) == {"1", "2", "3", "4", "5", "6"}
    ensures Tables.UniqueKeys(TourSeeds, SeedId)
  {
    SeedIdsInOrder();
    TourIdsDistinct();
    var keys := Tables.Keys(TourSeeds, SeedId);
    forall x | x in keys ensures x in set i | 0 <= i < |TourIds| :: TourIds[i] {
      var i :| 0 <= i < |TourSeeds| && SeedId(TourSeeds[i]) == x;
      assert TourIds[i] == x;
    }
    forall i | 0 <= i < |TourIds| ensures TourIds[i] in keys {
      assert SeedId(TourSeeds[i]) == TourIds[i];
    }
  }

  /** The stored seed rows have the ids '1' to '6', one row each. */
  lemma SeedRowIds()
    ensures Tables.Keys(Tours, RowId) == {"1", "2", "3", "4", "5", "6"}
    ensures Tables.UniqueKeys(Tours, RowId)
  {
    SeedIds();
    RowIds(TourSeeds);
  }

  /** Every seed tour stores its tags as the JSON text of its tag list, which
      the tours route decodes back to that list. */
  lemma SeedTagsDecode()
    ensures forall i :: 0 <= i < |Tours| ==> TagsJson.Decode(Tours[i].tags) == Some(TourSeeds[i].tags)
    ensures forall i :: 0 <= i < |Tours| ==> Present(Tours[i]).Some?
  {
  }

  /** The `for` loop over the seed tours: each is created when no tour has
      its id, and existing tours are left as they are. */
  method SeedTours(table: TourTable, seeds: seq<TourRow>)
    requires table.Valid()
    modifies table
    ensures table.Valid()
    ensures table.rows == Tables.InsertAllAbsent(old(table.rows), RowId, seeds)
  {
    var i := 0;
    while i < |seeds|
      invariant 0 <= i <= |seeds|
      invariant table.Valid()
      invariant Tables.InsertAllAbsent(table.rows, RowId, seeds[i..]) == Tables.InsertAllAbsent(old(table.rows), RowId, seeds)
    {
      assert seeds[i..][0] == seeds[i] && seeds[i..][1..] == seeds[i + 1..];
      var tour := seeds[i];
      if tour.id !in Tables.Keys(table.rows, RowId) {
        assert forall j :: 0 <= j < |table.rows| ==> table.rows[j].id != tour.id by {
          forall j | 0 <= j < |table.rows| ensures table.rows[j].id != tour.id {
            assert RowId(table.rows[j]) in Tables.Keys(table.rows, RowId);
          }
        }
        table.rows := table.rows + [tour];
      }
      i := i + 1;
    }
  }

  /** The admin step on the user table. */
  function SeedAdmin(users: seq<AuthRoute.User>, adminId: string): (r: seq<AuthRoute.User>)
    ensures AdminName in Tables.Keys(users, AuthRoute.Username) ==> r == users
    ensures AdminName !in Tables.Keys(users, AuthRoute.Username) ==> r == users + [Admin(adminId)]
    ensures Tables.UniqueKeys(users, AuthRoute.Username) ==> Tables.UniqueKeys(r, AuthRoute.Username)
  {
    if AdminName in Tables.Keys(users, AuthRoute.Username) then users
    else
      assert forall j :: 0 <= j < |users| ==> users[j].username != AdminName by {
        forall j | 0 <= j < |users| ensures users[j].username != AdminName {
          assert AuthRoute.Username(users[j]) in Tables.Keys(users, AuthRoute.Username);
        }
      }
      users + [Admin(adminId)]
  }

  /** `main`: the tours, then the admin user. */
  method Run(table: TourTable, users: seq<AuthRoute.User>, adminId: string) returns (usersAfter: seq<AuthRoute.User>)
    requires table.Valid() && Tables.UniqueKeys(users, AuthRoute.Username)
    modifies table
    ensures table.Valid() && Tables.UniqueKeys(usersAfter, AuthRoute.Username)
    ensures table.rows == Tables.InsertAllAbsent(old(table.rows), RowId, Tours)
    ensures usersAfter == SeedAdmin(users, adminId)
  {
    SeedTours(table, Tours);
    usersAfter := SeedAdmin(users, adminId);
  }

  /** After a run every seed id and the admin user are present, and nothing
      that was there is lost. */
  lemma AfterRunPresent(rows: seq<TourRow>, users: seq<AuthRoute.User>, adminId: string)
    ensures Tables.Keys(Tables.InsertAllAbsent(rows, RowId, Tours), RowId)
         == Tables.Keys(rows, RowId) + {"1", "2", "3", "4", "5", "6"}
    ensures Tables.Keys(SeedAdmin(users, adminId), AuthRoute.Username)
         == Tables.Keys(users, AuthRoute.Username) + {AdminName}
  {
    SeedRowIds();
    Tables.InsertAllAbsentKeys(rows, RowId, Tours);
    if AdminName !in Tables.Keys(users, AuthRoute.Username) {
      Tables.KeysAppend(users, AuthRoute.Username, Admin(adminId));
    }
  }

  /** A second run, whatever admin id the store would generate, changes
      nothing. */
  lemma RunTwiceSameAsOnce(rows: seq<TourRow>, users: seq<AuthRoute.User>, adminId: string, secondId: string)
    ensures var once := Tables.InsertAllAbsent(rows, RowId, Tours);
      Tables.InsertAllAbsent(once, RowId, Tours) == once
    ensures var once := SeedAdmin(users, adminId);
      SeedAdmin(once, secondId) == once
  {
    Tables.InsertAllAbsentIdempotent(rows, RowId, Tours);
    AfterRunPresent(rows, users, adminId);
  }
}
