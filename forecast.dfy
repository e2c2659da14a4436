/**
 * The forecast reduction of the weather client: walk the provider's samples
 * in order, keep the first sample of each calendar date, and show at most
 * five of the resulting groups in the order their dates first appeared.
 *
 * The calendar date of a sample is a locale-dependent function of its Unix
 * timestamp; it is a parameter `dateOf` here.  The client keeps the groups in
 * a JavaScript object whose keys (date strings such as "1/2/2024", never
 * integer-like) enumerate in insertion order; the method below models that
 * object as a map plus the sequence of its keys in insertion order.
 */
module Forecast {

  /** One entry of the provider's forecast list. */
  datatype Sample = Sample(dt: int, temp: real, humidity: int, description: string)

  /** How many day cards the forecast page shows at most. */
  const MaxDays: nat := 5

  /** The dates occurring in a list of samples. */
  ghost function Dates(list: seq<Sample>, dateOf: int -> string): set<string>
  {
    set i | 0 <= i < |list| :: dateOf(list[i].dt)
  }

  /**
   * The groups as the loop leaves them: the input is consumed from the front,
   * and a sample is kept exactly when no earlier sample has its date.
   */
  ghost function Firsts(list: seq<Sample>, dateOf: int -> string): seq<Sample>
    decreases |list|
  {
    if list == [] then []
    else
      var prefix := list[..|list| - 1];
      var last := list[|list| - 1];
      if dateOf(last.dt) in Dates(prefix, dateOf) then Firsts(prefix, dateOf)
      else Firsts(prefix, dateOf) + [last]
  }

  /** The position of the first sample with date `d`. */
  ghost function FirstIndex(list: seq<Sample>, dateOf: int -> string, d: string): (i: nat)
    requires d in Dates(list, dateOf)
    ensures i < |list| && dateOf(list[i].dt) == d
    ensures forall m :: 0 <= m < i ==> dateOf(list[m].dt) != d
    decreases |list|
  {
    var w :| 0 <= w < |list| && dateOf(list[w].dt) == d;
    if dateOf(list[0].dt) == d then 0
    else
      assert list[1..][w - 1] == list[w];
      1 + FirstIndex(list[1..], dateOf, d)
  }

  /** The first index is the only index carrying `d` with no earlier `d`. */
  lemma FirstIndexUnique(list: seq<Sample>, dateOf: int -> string, d: string, i: nat)
    requires i < |list| && dateOf(list[i].dt) == d
    requires forall m :: 0 <= m < i ==> dateOf(list[m].dt) != d
    ensures d in Dates(list, dateOf) && FirstIndex(list, dateOf, d) == i
  {
    assert d in Dates(list, dateOf);
  }

  /** Appending a sample adds its date to the dates seen. */
  lemma DatesSnoc(list: seq<Sample>, dateOf: int -> string)
    requires list != []
    ensures Dates(list, dateOf) ==
            Dates(list[..|list| - 1], dateOf) + {dateOf(list[|list| - 1].dt)}
  {
    var prefix := list[..|list| - 1];
    forall d | d in Dates(list, dateOf)
      ensures d in Dates(prefix, dateOf) + {dateOf(list[|list| - 1].dt)}
    {
      var i :| 0 <= i < |list| && dateOf(list[i].dt) == d;
      if i < |prefix| { assert prefix[i] == list[i]; }
    }
    forall d | d in Dates(prefix, dateOf)
      ensures d in Dates(list, dateOf)
    {
      var i :| 0 <= i < |prefix| && dateOf(prefix[i].dt) == d;
      assert list[i] == prefix[i];
    }
  }

  /** A date already seen in a prefix keeps its first index in the longer list. */
  lemma FirstIndexExtends(list: seq<Sample>, dateOf: int -> string, e: string)
    requires list != []
    requires e in Dates(list[..|list| - 1], dateOf)
    ensures e in Dates(list, dateOf)
    ensures FirstIndex(list, dateOf, e) == FirstIndex(list[..|list| - 1], dateOf, e)
  {
    var prefix := list[..|list| - 1];
    var i := FirstIndex(prefix, dateOf, e);
    assert list[i] == prefix[i];
    forall m | 0 <= m < i ensures dateOf(list[m].dt) != e {
      assert list[m] == prefix[m];
    }
    FirstIndexUnique(list, dateOf, e, i);
  }

  /** The groups carry exactly the dates of the input: every input date is represented. */
  lemma {:induction false} FirstsDates(list: seq<Sample>, dateOf: int -> string)
    ensures Dates(Firsts(list, dateOf), dateOf) == Dates(list, dateOf)
    decreases |list|
  {
    if list != [] {
      var prefix := list[..|list| - 1];
      FirstsDates(prefix, dateOf);
      DatesSnoc(list, dateOf);
      var gp := Firsts(prefix, dateOf);
      if dateOf(list[|list| - 1].dt) !in Dates(prefix, dateOf) {
        var g := gp + [list[|list| - 1]];
        assert g[..|g| - 1] == gp;
        DatesSnoc(g, dateOf);
      }
    }
  }

  /** Each group is the first sample of the input with its date. */
  lemma {:induction false} FirstsAreFirst(list: seq<Sample>, dateOf: int -> string)
    ensures forall j :: 0 <= j < |Firsts(list, dateOf)| ==>
              var g := Firsts(list, dateOf)[j];
              dateOf(g.dt) in Dates(list, dateOf) &&
              g == list[FirstIndex(list, dateOf, dateOf(g.dt))]
    decreases |list|
  {
    if list != [] {
      var prefix := list[..|list| - 1];
      var last := list[|list| - 1];
      FirstsAreFirst(prefix, dateOf);
      var gp := Firsts(prefix, dateOf);
      forall j | 0 <= j < |gp|
        ensures dateOf(gp[j].dt) in Dates(list, dateOf)
        ensures gp[j] == list[FirstIndex(list, dateOf, dateOf(gp[j].dt))]
      {
        var e := dateOf(gp[j].dt);
        FirstIndexExtends(list, dateOf, e);
        assert list[FirstIndex(prefix, dateOf, e)] == prefix[FirstIndex(prefix, dateOf, e)];
      }
      if dateOf(last.dt) !in Dates(prefix, dateOf) {
        forall m | 0 <= m < |list| - 1 ensures dateOf(list[m].dt) != dateOf(last.dt) {
          assert list[m] == prefix[m];
        }
        FirstIndexUnique(list, dateOf, dateOf(last.dt), |list| - 1);
      }
    }
  }

  /**
   * The groups appear in the order in which their dates first occur in the
   * input; in particular no date has two groups.
   */
  lemma {:induction false} FirstsOrdered(list: seq<Sample>, dateOf: int -> string)
    ensures forall j :: 0 <= j < |Firsts(list, dateOf)| ==>
              dateOf(Firsts(list, dateOf)[j].dt) in Dates(list, dateOf)
    ensures forall a, b :: 0 <= a < b < |Firsts(list, dateOf)| ==>
              FirstIndex(list, dateOf, dateOf(Firsts(list, dateOf)[a].dt)) <
              FirstIndex(list, dateOf, dateOf(Firsts(list, dateOf)[b].dt))
    ensures forall a, b :: 0 <= a < b < |Firsts(list, dateOf)| ==>
              dateOf(Firsts(list, dateOf)[a].dt) != dateOf(Firsts(list, dateOf)[b].dt)
    decreases |list|
  {
    FirstsAreFirst(list, dateOf);
    if list != [] {
      var prefix := list[..|list| - 1];
      var last := list[|list| - 1];
      FirstsOrdered(prefix, dateOf);
      FirstsAreFirst(prefix, dateOf);
      var gp := Firsts(prefix, dateOf);
      var g := Firsts(list, dateOf);
      forall j | 0 <= j < |gp|
        ensures FirstIndex(list, dateOf, dateOf(gp[j].dt)) == FirstIndex(prefix, dateOf, dateOf(gp[j].dt))
      {
        FirstIndexExtends(list, dateOf, dateOf(gp[j].dt));
      }
      if dateOf(last.dt) !in Dates(prefix, dateOf) {
        forall m | 0 <= m < |list| - 1 ensures dateOf(list[m].dt) != dateOf(last.dt) {
          assert list[m] == prefix[m];
        }
        FirstIndexUnique(list, dateOf, dateOf(last.dt), |list| - 1);
        forall a, b | 0 <= a < b < |g|
          ensures FirstIndex(list, dateOf, dateOf(g[a].dt)) < FirstIndex(list, dateOf, dateOf(g[b].dt))
        {
          assert g[a] == gp[a];
          if b < |gp| { assert g[b] == gp[b]; }
        }
      }
    }
  }

  /** There are exactly as many groups as distinct dates in the input. */
  lemma {:induction false} FirstsCount(list: seq<Sample>, dateOf: int -> string)
    ensures |Firsts(list, dateOf)| == |Dates(list, dateOf)|
    decreases |list|
  {
    if list != [] {
      var prefix := list[..|list| - 1];
      FirstsCount(prefix, dateOf);
      DatesSnoc(list, dateOf);
    }
  }

  /** The first `MaxDays` groups, or all of them when there are fewer. */
  function FirstDays(groups: seq<Sample>): (r: seq<Sample>)
    ensures |r| <= MaxDays
    ensures r <= groups
    ensures |groups| <= MaxDays ==> r == groups
    ensures |groups| > MaxDays ==> r == groups[..MaxDays]
  {
    if |groups| <= MaxDays then groups else groups[..MaxDays]
  }

  /**
   * The `forEach` loop that fills the `forecasts` object, followed by
   * `Object.values(forecasts).slice(0, 5)`.  The cards are the first five
   * groups of the reduction, and there are as many cards as distinct dates,
   * up to five.
   */
  method ReduceForecast(list: seq<Sample>, dateOf: int -> string) returns (cards: seq<Sample>)
    ensures cards == FirstDays(Firsts(list, dateOf))
    ensures |cards| == if |Dates(list, dateOf)| <= MaxDays then |Dates(list, dateOf)| else MaxDays
  {
    var forecasts: map<string, Sample> := map[];
    var order: seq<string> := [];
    ghost var groups: seq<Sample> := [];
    for i := 0 to |list|
      invariant groups == Firsts(list[..i], dateOf)
      invariant forecasts.Keys == Dates(list[..i], dateOf)
      invariant |order| == |groups|
      invariant forall j :: 0 <= j < |order| ==> order[j] in forecasts && forecasts[order[j]] == groups[j]
    {
      var date := dateOf(list[i].dt);
      assert list[..i + 1][..i] == list[..i];
      DatesSnoc(list[..i + 1], dateOf);
      if date !in forecasts {
        forecasts := forecasts[date := list[i]];
        order := order + [date];
        groups := groups + [list[i]];
      }
    }
    assert list[..|list|] == list;
    var values: seq<Sample> := [];
    for j := 0 to |order|
      invariant values == groups[..j]
    {
      values := values + [forecasts[order[j]]];
    }
    assert values == groups;
    cards := if |values| <= MaxDays then values else values[..MaxDays];
    FirstsCount(list, dateOf);
  }
}
