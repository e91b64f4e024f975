/** The coin search of public/index.js and the numbered rows it shows. */
module Search {
  import opened Wrappers
  import opened Seqs
  import opened Records

  /** `toLowerCase` on one character, for ASCII letters. */
  function LowerChar(c: char): char
  {
    if 'A' <= c <= 'Z' then (c as int + 32) as char else c
  }

  predicate IsUpper(c: char) { 'A' <= c <= 'Z' }

  /**
   * `toLowerCase` on a string: same length, no upper-case ASCII letter left,
   * each upper-case letter replaced by its lower-case partner and every other
   * character kept.
   */
  function Lower(s: string): (r: string)
    ensures |r| == |s|
    ensures forall i :: 0 <= i < |r| ==> !IsUpper(r[i])
    ensures forall i :: 0 <= i < |s| && !IsUpper(s[i]) ==> r[i] == s[i]
    ensures forall i :: 0 <= i < |s| && IsUpper(s[i]) ==> r[i] as int == s[i] as int + 32
  {
    seq(|s|, i requires 0 <= i < |s| => LowerChar(s[i]))
  }

  /** `s.includes(t)`: `t` occurs in `s` at some position; the empty string occurs everywhere. */
  predicate Includes(s: string, t: string)
  {
    exists i :: 0 <= i <= |s| - |t| && OccursAt(s, t, i)
  }

  predicate OccursAt(s: string, t: string, i: int)
  {
    0 <= i <= |s| - |t| && s[i..i + |t|] == t
  }

  /** The search runs only for a query that is present and not empty. */
  predicate QueryGiven(query: Option<string>) { query.Some? && query.value != "" }

  /** The coin's lower-cased name contains the lower-cased query. */
  predicate NameMatches(coin: Product, query: string)
  {
    Includes(Lower(coin.name), Lower(query))
  }

  /**
   * The coins `loadCoins` shows for a query: all of them when there is no
   * query, otherwise those whose name contains the query, ignoring the case
   * of ASCII letters, in the order fetched.
   */
  function SearchCoins(coins: seq<Product>, query: Option<string>): (r: seq<Product>)
    ensures !QueryGiven(query) ==> r == coins
    ensures IsSubsequence(r, coins)
    ensures QueryGiven(query) ==> forall c :: c in r ==> NameMatches(c, query.value)
    ensures QueryGiven(query) ==> forall c :: c in coins && NameMatches(c, query.value) ==> c in r
    ensures multiset(r) <= multiset(coins)
    ensures QueryGiven(query) ==>
      forall c :: c in coins && NameMatches(c, query.value) ==> multiset(r)[c] == multiset(coins)[c]
  {
    if QueryGiven(query) then
      var q := query.value;
      Filter(coins, (c: Product) => NameMatches(c, q))
    else
      SubsequenceReflexive(coins);
      coins
  }

  /** Lower-casing twice is lower-casing once. */
  lemma LowerIsIdempotent(s: string)
    ensures Lower(Lower(s)) == Lower(s)
  {
    var r := Lower(s);
    assert forall i :: 0 <= i < |r| ==> Lower(r)[i] == r[i];
  }

  /** Filtering with two predicates that agree everywhere gives the same result. */
  lemma {:induction false} FilterAgrees<T>(s: seq<T>, f: T -> bool, g: T -> bool)
    requires forall x :: x in s ==> f(x) == g(x)
    ensures Filter(s, f) == Filter(s, g)
    decreases |s|
  {
    if |s| != 0 {
      assert forall x :: x in s[1..] ==> x in s;
      FilterAgrees(s[1..], f, g);
    }
  }

  /** The search is case-insensitive: a query finds the same coins as its lower-cased form. */
  lemma SearchIgnoresQueryCase(coins: seq<Product>, q: string)
    requires q != ""
    ensures SearchCoins(coins, Some(q)) == SearchCoins(coins, Some(Lower(q)))
  {
    LowerIsIdempotent(q);
    FilterAgrees(coins, (c: Product) => NameMatches(c, q), (c: Product) => NameMatches(c, Lower(q)));
  }

  /** A row of the coin table: its number and the coin's shown fields. */
  datatype Row = Row(number: int, id: int, name: string, price: int, marketCap: int, quantity: int)

  function RowOf(coin: Product, number: int): Row
  {
    Row(number, coin.id, coin.name, coin.price, coin.marketCap, coin.quantity)
  }

  /**
   * `loadCoins` on coins already fetched: filter by the query, then one row
   * per coin, numbered 1, 2, ... in result order.
   */
  method LoadCoins(fetched: seq<Product>, query: Option<string>) returns (rows: seq<Row>)
    ensures |rows| == |SearchCoins(fetched, query)|
    ensures forall i :: 0 <= i < |rows| ==> rows[i] == RowOf(SearchCoins(fetched, query)[i], i + 1)
  {
    var coins := SearchCoins(fetched, query);
    rows := [];
    var index := 0;
    while index < |coins|
      invariant 0 <= index <= |coins|
      invariant |rows| == index
      invariant forall i :: 0 <= i < index ==> rows[i] == RowOf(coins[i], i + 1)
    {
      rows := rows + [RowOf(coins[index], index + 1)];
      index := index + 1;
    }
  }
}
