/**
 * The leaderboard of the kitchen model: every live meal that has fought at
 * least one battle, with its win percentage, sorted in descending order of
 * wins or of win percentage.
 */
module Leaderboard {
  import opened Meals
  import opened Kitchen

  /** One line of the leaderboard. */
  datatype Entry = Entry(id: int, name: string, cuisine: string, price: real, difficulty: Difficulty,
                         battles: nat, wins: nat, winPct: real)

  /** The column the leaderboard is sorted on. */
  datatype SortKey = ByWins | ByWinPct

  /** Reads the sort parameter; only "wins" and "win_pct" are accepted. */
  function ParseSortBy(s: string): (r: Result<SortKey, Error>)
    ensures r.Ok? <==> s == "wins" || s == "win_pct"
    ensures r == Ok(ByWins) <==> s == "wins"
    ensures r.Err? ==> r.error == InvalidSortBy(s)
  {
    if s == "wins" then Ok(ByWins)
    else if s == "win_pct" then Ok(ByWinPct)
    else Err(InvalidSortBy(s))
  }

  /** A row appears on the leaderboard when it is not deleted and has fought. */
  predicate Listed(r: Row)
  {
    !r.deleted && r.battles > 0
  }

  /** The leaderboard line of a row: its fields and its percentage of battles won. */
  function EntryOf(id: int, r: Row): (e: Entry)
    requires r.battles > 0
    ensures e.id == id && e.name == r.name && e.cuisine == r.cuisine && e.price == r.price
    ensures e.difficulty == r.difficulty && e.battles == r.battles && e.wins == r.wins
    ensures e.winPct * (r.battles as real) == (r.wins as real) * 100.0
  {
    var q := (r.wins as real) / (r.battles as real);
    assert q * (r.battles as real) == r.wins as real;
    Entry(id, r.name, r.cuisine, r.price, r.difficulty, r.battles, r.wins, q * 100.0)
  }

  /** The win percentage of a row lies between 0 and 100. */
  lemma WinPctBounded(id: int, r: Row)
    requires RowOk(r) && r.battles > 0
    ensures 0.0 <= EntryOf(id, r).winPct <= 100.0
  {
    var w, b := r.wins as real, r.battles as real;
    var q := w / b;
    assert q * b == w;
  }

  /** The lines of the listed rows with ids 1..k, in increasing id order. */
  function Listing(t: Table, k: int): (s: seq<Entry>)
    decreases k
    ensures forall e :: e in s <==> 1 <= e.id <= k && e.id in t && Listed(t[e.id]) && e == EntryOf(e.id, t[e.id])
    ensures forall i, j :: 0 <= i < j < |s| ==> s[i].id < s[j].id
  {
    if k < 1 then []
    else
      var rest := Listing(t, k - 1);
      if k in t && Listed(t[k]) then rest + [EntryOf(k, t[k])] else rest
  }

  function Key(e: Entry, k: SortKey): real
  {
    match k
    case ByWins => e.wins as real
    case ByWinPct => e.winPct
  }

  ghost predicate SortedDesc(s: seq<Entry>, k: SortKey)
  {
    forall i, j :: 0 <= i < j < |s| ==> Key(s[i], k) >= Key(s[j], k)
  }

  /** A line no smaller than the head of a descending list may go in front of it. */
  lemma PrependSorted(x: Entry, s: seq<Entry>, k: SortKey)
    requires SortedDesc(s, k)
    requires s != [] ==> Key(x, k) >= Key(s[0], k)
    ensures SortedDesc([x] + s, k)
  {
    forall i, j | 0 <= i < j < |[x] + s|
      ensures Key(([x] + s)[i], k) >= Key(([x] + s)[j], k)
    {
      if i == 0 && j > 1 {
        assert Key(s[0], k) >= Key(s[j - 1], k);
      }
    }
  }

  /** Inserts a line into a list sorted in descending order of the key. */
  function Insert(e: Entry, s: seq<Entry>, k: SortKey): (r: seq<Entry>)
    ensures multiset(r) == multiset(s) + multiset{e}
    ensures SortedDesc(s, k) ==> SortedDesc(r, k)
  {
    if s == [] then [e]
    else if Key(e, k) >= Key(s[0], k) then
      assert SortedDesc(s, k) ==> SortedDesc([e] + s, k) by {
        if SortedDesc(s, k) { PrependSorted(e, s, k); }
      }
      [e] + s
    else
      var rest := Insert(e, s[1..], k);
      assert s == [s[0]] + s[1..];
      assert SortedDesc(s, k) ==> SortedDesc([s[0]] + rest, k) by {
        if SortedDesc(s, k) {
          assert SortedDesc(s[1..], k);
          assert rest[0] in multiset(rest);
          PrependSorted(s[0], rest, k);
        }
      }
      [s[0]] + rest
  }

  /** Sorts lines in descending order of the key. */
  function SortDesc(s: seq<Entry>, k: SortKey): (r: seq<Entry>)
    ensures multiset(r) == multiset(s)
    ensures SortedDesc(r, k)
  {
    if s == [] then []
    else
      assert s == [s[0]] + s[1..];
      Insert(s[0], SortDesc(s[1..], k), k)
  }

  /**
   * The leaderboard: the listed rows, sorted in descending order of wins or
   * of win percentage; any other sort parameter is refused.
   */
  function GetLeaderboard(t: Table, sortBy: string): (r: Result<seq<Entry>, Error>)
    ensures r.Err? <==> sortBy != "wins" && sortBy != "win_pct"
    ensures r.Err? ==> r.error == InvalidSortBy(sortBy)
    ensures r.Ok? ==> SortedDesc(r.value, ParseSortBy(sortBy).value)
    ensures r.Ok? ==> multiset(r.value) == multiset(Listing(t, |t|))
  {
    match ParseSortBy(sortBy)
    case Err(e) => Err(e)
    case Ok(k) => Ok(SortDesc(Listing(t, |t|), k))
  }

  /**
   * In a valid table the leaderboard holds exactly the lines of the live rows
   * that have fought, each with a win percentage between 0 and 100.
   */
  lemma LeaderboardMembers(t: Table, sortBy: string, e: Entry)
    requires Valid(t)
    requires GetLeaderboard(t, sortBy).Ok?
    ensures e in GetLeaderboard(t, sortBy).value <==>
              e.id in t && Listed(t[e.id]) && e == EntryOf(e.id, t[e.id])
    ensures e in GetLeaderboard(t, sortBy).value ==> 0.0 <= e.winPct <= 100.0
  {
    var board := GetLeaderboard(t, sortBy).value;
    var listing := Listing(t, |t|);
    assert e in board <==> e in listing by {
      assert e in board <==> e in multiset(board);
      assert e in listing <==> e in multiset(listing);
    }
    if e in board {
      WinPctBounded(e.id, t[e.id]);
    }
  }

  /** The table the leaderboard test describes. */
  function TestTable(): Table
  {
    map[1 := Row("Spaghetti", "Italian", 12.99, Med, false, 10, 7),
        2 := Row("Burger", "American", 8.99, Low, false, 15, 12),
        3 := Row("Sushi", "Japanese", 15.99, High, false, 5, 3)]
  }

  lemma TestListing()
    ensures Listing(TestTable(), 3) ==
              [Entry(1, "Spaghetti", "Italian", 12.99, Med, 10, 7, 70.0),
               Entry(2, "Burger", "American", 8.99, Low, 15, 12, 80.0),
               Entry(3, "Sushi", "Japanese", 15.99, High, 5, 3, 60.0)]
  {
    var t := TestTable();
    assert EntryOf(1, t[1]).winPct == 70.0;
    assert EntryOf(2, t[2]).winPct == 80.0;
    assert EntryOf(3, t[3]).winPct == 60.0;
    assert Listing(t, 0) == [];
    assert Listing(t, 1) == [EntryOf(1, t[1])];
    assert Listing(t, 2) == [EntryOf(1, t[1]), EntryOf(2, t[2])];
  }

  lemma TestSort(spaghetti: Entry, burger: Entry, sushi: Entry)
    requires spaghetti.wins == 7 && burger.wins == 12 && sushi.wins == 3
    ensures SortDesc([spaghetti, burger, sushi], ByWins) == [burger, spaghetti, sushi]
  {
    assert [spaghetti, burger, sushi][1..] == [burger, sushi];
    assert [burger, sushi][1..] == [sushi];
    assert [sushi][1..] == [];
    assert SortDesc([sushi], ByWins) == [sushi];
    assert SortDesc([burger, sushi], ByWins) == [burger, sushi];
    assert Insert(spaghetti, [sushi], ByWins) == [spaghetti, sushi];
    assert [burger, sushi][1..] == [sushi];
  }

  /** The leaderboard by wins of the table the leaderboard test describes. */
  lemma LeaderboardOfTestTable()
    ensures GetLeaderboard(TestTable(), "wins") ==
              Ok([Entry(2, "Burger", "American", 8.99, Low, 15, 12, 80.0),
                  Entry(1, "Spaghetti", "Italian", 12.99, Med, 10, 7, 70.0),
                  Entry(3, "Sushi", "Japanese", 15.99, High, 5, 3, 60.0)])
  {
    var t := TestTable();
    assert t.Keys == {1, 2, 3};
    assert |t| == 3;
    TestListing();
    TestSort(Entry(1, "Spaghetti", "Italian", 12.99, Med, 10, 7, 70.0),
             Entry(2, "Burger", "American", 8.99, Low, 15, 12, 80.0),
             Entry(3, "Sushi", "Japanese", 15.99, High, 5, 3, 60.0));
  }
}
