/**
 * The favorites list of the weather client: a sequence of `{name, country}`
 * records with set semantics keyed by the city name.  These are the pure
 * list operations (`some`, `filter`, the push-or-filter toggle) that the
 * presenter applies to its state.
 */
module Favorites {

  /** A saved city. */
  datatype Favorite = Favorite(name: string, country: string)

  /**
   * The `some(fav => fav.name === name)` membership test: false on the empty
   * list, otherwise true when the first entry has the name or some later
   * entry does.
   */
  predicate HasName(favs: seq<Favorite>, name: string): (found: bool)
    ensures favs == [] ==> !found
    ensures favs != [] ==> (found <==> favs[0].name == name || HasName(favs[1..], name))
    decreases |favs|
  {
    exists i | 0 <= i < |favs| :: favs[i].name == name
  }

  /** The invariant the list is meant to keep: no two favorites share a name. */
  ghost predicate UniqueNames(favs: seq<Favorite>)
  {
    forall i, j | 0 <= i < j < |favs| :: favs[i].name != favs[j].name
  }

  /** `a` is `b` with some entries deleted and the rest in their original order. */
  ghost predicate SubsequenceOf(a: seq<Favorite>, b: seq<Favorite>)
    decreases |b|
  {
    if a == [] then true
    else if b == [] then false
    else if a[0] == b[0] then SubsequenceOf(a[1..], b[1..])
    else SubsequenceOf(a, b[1..])
  }

  /**
   * The `filter(fav => fav.name !== name)` step: no entry with that name is
   * left, and a list without the name is returned as it is.  What happens to
   * the other entries is stated by WithoutNameKeepsOthers.
   */
  function WithoutName(favs: seq<Favorite>, name: string): (r: seq<Favorite>)
    ensures !HasName(r, name)
    ensures !HasName(favs, name) ==> r == favs
  {
    if favs == [] then []
    else
      var rest := WithoutName(favs[1..], name);
      if favs[0].name == name then rest
      else
        assert HasName(favs, name) ==> HasName(favs[1..], name) by {
          if HasName(favs, name) {
            var i :| 0 <= i < |favs| && favs[i].name == name;
            assert favs[1..][i - 1] == favs[i];
          }
        }
        [favs[0]] + rest
  }

  /**
   * Every entry with another name survives the filter, with its multiplicity
   * and in its original relative order.
   */
  lemma {:induction false} WithoutNameKeepsOthers(favs: seq<Favorite>, name: string)
    ensures forall f :: multiset(WithoutName(favs, name))[f] ==
                        if f.name == name then 0 else multiset(favs)[f]
    ensures SubsequenceOf(WithoutName(favs, name), favs)
  {
    if favs != [] {
      WithoutNameKeepsOthers(favs[1..], name);
      assert favs == [favs[0]] + favs[1..];
      var rest := WithoutName(favs[1..], name);
      if favs[0].name != name {
        assert WithoutName(favs, name) == [favs[0]] + rest;
        assert ([favs[0]] + rest)[1..] == rest;
      }
    }
  }

  /**
   * What `addToFavorites` does to the list for the city on display: if a
   * favorite already has its name, all such entries are removed; otherwise
   * the city is pushed at the end.
   */
  function Toggled(favs: seq<Favorite>, city: Favorite): (r: seq<Favorite>)
    ensures HasName(r, city.name) <==> !HasName(favs, city.name)
    ensures !HasName(favs, city.name) ==> r == favs + [city]
    ensures WithoutName(r, city.name) == WithoutName(favs, city.name)
    ensures UniqueNames(favs) ==> UniqueNames(r)
  {
    if HasName(favs, city.name) then
      var r := WithoutName(favs, city.name);
      assert UniqueNames(favs) ==> UniqueNames(r) by {
        if UniqueNames(favs) { WithoutNameKeepsUnique(favs, city.name); }
      }
      r
    else
      var r := favs + [city];
      assert r[|favs|].name == city.name;
      WithoutNameConcat(favs, [city], city.name);
      assert WithoutName([city], city.name) == [] by {
        assert [city][1..] == [];
      }
      r
  }

  /** Filtering distributes over concatenation. */
  lemma {:induction false} WithoutNameConcat(a: seq<Favorite>, b: seq<Favorite>, name: string)
    ensures WithoutName(a + b, name) == WithoutName(a, name) + WithoutName(b, name)
  {
    if a == [] {
      assert a + b == b;
    } else {
      var ab := a + b;
      assert ab[0] == a[0];
      assert ab[1..] == a[1..] + b;
      WithoutNameConcat(a[1..], b, name);
      if a[0].name == name {
        assert WithoutName(ab, name) == WithoutName(a[1..] + b, name);
      } else {
        assert WithoutName(ab, name) == [a[0]] + WithoutName(a[1..] + b, name);
        assert WithoutName(a, name) == [a[0]] + WithoutName(a[1..], name);
      }
    }
  }

  /** Filtering never brings in a name the list did not have. */
  lemma {:induction false} WithoutNameNoNewNames(favs: seq<Favorite>, name: string, other: string)
    requires !HasName(favs, other)
    ensures !HasName(WithoutName(favs, name), other)
  {
    if favs != [] {
      forall i | 0 <= i < |favs[1..]| ensures favs[1..][i].name != other {
        assert favs[1..][i] == favs[i + 1];
      }
      WithoutNameNoNewNames(favs[1..], name, other);
      var rest := WithoutName(favs[1..], name);
      if favs[0].name != name {
        var r := [favs[0]] + rest;
        forall i | 0 <= i < |r| ensures r[i].name != other {
          if i > 0 { assert r[i] == rest[i - 1]; }
        }
      }
    }
  }

  /** A list with unique names stays so when a new name goes in front. */
  lemma ConsKeepsUnique(f: Favorite, favs: seq<Favorite>)
    requires UniqueNames(favs) && !HasName(favs, f.name)
    ensures UniqueNames([f] + favs)
  {
    var r := [f] + favs;
    forall i, j | 0 <= i < j < |r| ensures r[i].name != r[j].name {
      assert r[j] == favs[j - 1];
      if i > 0 { assert r[i] == favs[i - 1]; }
    }
  }

  /** Removing a name never creates a duplicate name. */
  lemma {:induction false} WithoutNameKeepsUnique(favs: seq<Favorite>, name: string)
    requires UniqueNames(favs)
    ensures UniqueNames(WithoutName(favs, name))
  {
    if favs != [] {
      var tail := favs[1..];
      assert UniqueNames(tail) by {
        forall i, j | 0 <= i < j < |tail| ensures tail[i].name != tail[j].name {
          assert tail[i] == favs[i + 1] && tail[j] == favs[j + 1];
        }
      }
      WithoutNameKeepsUnique(tail, name);
      if favs[0].name != name {
        forall i | 0 <= i < |tail| ensures tail[i].name != favs[0].name {
          assert tail[i] == favs[i + 1];
        }
        WithoutNameNoNewNames(tail, name, favs[0].name);
        ConsKeepsUnique(favs[0], WithoutName(tail, name));
      }
    }
  }

  /** removeFavorite is idempotent: filtering twice is filtering once. */
  lemma WithoutNameIdempotent(favs: seq<Favorite>, name: string)
    ensures WithoutName(WithoutName(favs, name), name) == WithoutName(favs, name)
  {
  }

  /** Toggling a city that is not a favorite twice gives back the original list exactly. */
  lemma {:induction false} ToggleTwice(favs: seq<Favorite>, city: Favorite)
    requires !HasName(favs, city.name)
    ensures Toggled(Toggled(favs, city), city) == favs
  {
    var once := Toggled(favs, city);
    assert once == favs + [city];
    assert once[|favs|].name == city.name;
    WithoutNameConcat(favs, [city], city.name);
    assert [city][1..] == [];
  }
}
