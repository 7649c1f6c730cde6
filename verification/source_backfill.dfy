/** `add_source_urls`: items of four named sections of a reply that lack
    `source_urls` (or have a falsy one) get the first two source URLs. The
    reply is updated in place; the model rebuilds it section by section. */
module SourceBackfill {
  import opened Wrappers
  import opened Strings
  import opened Json

  const SourceUrlsKey := "source_urls"
  const DynamicsKey := "market_dynamics"
  const TrendsKey := "key_trends"
  const OpportunitiesKey := "market_opportunities"
  const RisksKey := "risk_flags"
  const RecommendationsKey := "strategic_recommendations"

  /** The value written into an item: the first two URLs, in order. */
  function Fill(sourceUrls: seq<string>): (fill: Json)
    ensures fill.JArr? && |fill.items| <= 2
    ensures fill == StrArray(Take(sourceUrls, 2))
  {
    StrArray(Take(sourceUrls, 2))
  }

  predicate NeedsUrls(fields: map<string, Json>)
  {
    SourceUrlsKey !in fields || !Truthy(fields[SourceUrlsKey])
  }

  /** One item: a dict lacking URLs gets `fill`, a dict with URLs is kept;
      any other value makes the `in` test or the assignment raise. */
  function BackfillItem(item: Json, fill: Json): (r: Result<Json>)
    ensures r.Success? <==> item.JObj?
    ensures item.JObj? && NeedsUrls(item.fields) ==> r == Success(JObj(item.fields[SourceUrlsKey := fill]))
    ensures item.JObj? && !NeedsUrls(item.fields) ==> r == Success(item)
  {
    match item
    case JObj(fields) => Success(if NeedsUrls(fields) then JObj(fields[SourceUrlsKey := fill]) else item)
    case _ => Failure(ShapeError)
  }

  /** A section after its `for` loop. A list is processed item by item; an
      empty dict or an empty string gives nothing to iterate; a non-empty
      dict or string yields strings, which raise; other values cannot be
      iterated. */
  function BackfilledSection(section: Json, fill: Json): (r: Result<Json>)
  {
    match section
    case JArr(items) =>
      if forall i :: 0 <= i < |items| ==> items[i].JObj? then
        Success(JArr(seq(|items|, i requires 0 <= i < |items| => BackfillItem(items[i], fill).value)))
      else Failure(ShapeError)
    case JObj(fields) => if fields == map[] then Success(section) else Failure(ShapeError)
    case JStr(s) => if s == "" then Success(section) else Failure(ShapeError)
    case _ => Failure(ShapeError)
  }

  /** The loop over one section. */
  method BackfillSection(section: Json, fill: Json) returns (r: Result<Json>)
    ensures r == BackfilledSection(section, fill)
  {
    match section {
      case JArr(items) =>
        var updated := items;
        for i := 0 to |items|
          invariant |updated| == |items|
          invariant forall j :: 0 <= j < i ==> items[j].JObj? && updated[j] == BackfillItem(items[j], fill).value
          invariant forall j :: i <= j < |items| ==> updated[j] == items[j]
        {
          if !items[i].JObj? {
            return Failure(ShapeError);
          }
          var fields := items[i].fields;
          if SourceUrlsKey !in fields || !Truthy(fields[SourceUrlsKey]) {
            updated := updated[i := JObj(fields[SourceUrlsKey := fill])];
          }
        }
        assert updated == seq(|items|, i requires 0 <= i < |items| => BackfillItem(items[i], fill).value);
        r := Success(JArr(updated));
      case JObj(fields) =>
        r := if fields == map[] then Success(section) else Failure(ShapeError);
      case JStr(s) =>
        r := if s == "" then Success(section) else Failure(ShapeError);
      case _ =>
        r := Failure(ShapeError);
    }
  }

  /** The first block: `key_trends` inside `market_dynamics`, tested with
      Python's `in` on whatever `market_dynamics` holds. */
  function DynamicsStep(result: map<string, Json>, fill: Json): Result<map<string, Json>>
  {
    if DynamicsKey !in result then Success(result)
    else
      var dynamics := result[DynamicsKey];
      match PyIn(TrendsKey, dynamics)
      case Failure(e) => Failure(e)
      case Success(present) =>
        if !present then Success(result)
        else
          match PyGetItem(dynamics, TrendsKey)
          case Failure(e) => Failure(e)
          case Success(trends) =>
            match BackfilledSection(trends, fill)
            case Failure(e) => Failure(e)
            case Success(trends2) => Success(result[DynamicsKey := JObj(dynamics.fields[TrendsKey := trends2])])
  }

  /** One of the three top-level blocks. */
  function SectionStep(result: map<string, Json>, key: string, fill: Json): Result<map<string, Json>>
  {
    if key !in result then Success(result)
    else
      match BackfilledSection(result[key], fill)
      case Failure(e) => Failure(e)
      case Success(section) => Success(result[key := section])
  }

  /** The three top-level sections, in program order. */
  const ListSections := [OpportunitiesKey, RisksKey, RecommendationsKey]

  /** The outcome after the market-dynamics block and the first `n` of the
      other three; the first block that raises decides the failure. */
  function StepsFrom(result: map<string, Json>, fill: Json, n: nat): Result<map<string, Json>>
    requires n <= 3
  {
    if n == 0 then DynamicsStep(result, fill)
    else
      match StepsFrom(result, fill, n - 1)
      case Failure(e) => Failure(e)
      case Success(r) => SectionStep(r, ListSections[n - 1], fill)
  }

  /** `add_source_urls` as a function. */
  function SourceUrlsAdded(result: map<string, Json>, sourceUrls: seq<string>): Result<map<string, Json>>
  {
    StepsFrom(result, Fill(sourceUrls), 3)
  }

  lemma {:induction false} StepsFail(result: map<string, Json>, fill: Json, n: nat)
    requires n <= 3 && StepsFrom(result, fill, n).Failure?
    ensures StepsFrom(result, fill, 3) == StepsFrom(result, fill, n)
    decreases 3 - n
  {
    if n < 3 {
      StepsFail(result, fill, n + 1);
    }
  }

  /** `add_source_urls`. */
  method AddSourceUrls(result: map<string, Json>, sourceUrls: seq<string>) returns (r: Result<map<string, Json>>)
    ensures r == SourceUrlsAdded(result, sourceUrls)
  {
    var fill := Fill(sourceUrls);
    var current := result;
    if DynamicsKey in current {
      var dynamics := current[DynamicsKey];
      var present := PyIn(TrendsKey, dynamics);
      if present.Failure? {
        StepsFail(result, fill, 0);
        return Failure(present.error);
      }
      if present.value {
        var trends := PyGetItem(dynamics, TrendsKey);
        if trends.Failure? {
          StepsFail(result, fill, 0);
          return Failure(trends.error);
        }
        var trends2 := BackfillSection(trends.value, fill);
        if trends2.Failure? {
          StepsFail(result, fill, 0);
          return Failure(trends2.error);
        }
        current := current[DynamicsKey := JObj(dynamics.fields[TrendsKey := trends2.value])];
      }
    }
    for i := 0 to 3
      invariant StepsFrom(result, fill, i) == Success(current)
    {
      var key := ListSections[i];
      if key in current {
        var section := BackfillSection(current[key], fill);
        if section.Failure? {
          StepsFail(result, fill, i + 1);
          return Failure(section.error);
        }
        current := current[key := section.value];
      }
    }
    r := Success(current);
  }

  /** A settled section is one the loop leaves as it is. */
  predicate Settled(section: Json, fill: Json)
  {
    BackfilledSection(section, fill) == Success(section)
  }

  /** Within a list section each item is a dict afterwards; an item that
      lacked URLs holds exactly `fill` under `source_urls` and is otherwise
      unchanged, and an item that had URLs is untouched. */
  lemma SectionItemsBackfilled(section: Json, fill: Json)
    requires section.JArr? && BackfilledSection(section, fill).Success?
    ensures var out := BackfilledSection(section, fill).value;
      out.JArr? && |out.items| == |section.items| &&
      forall i :: 0 <= i < |out.items| ==>
        out.items[i].JObj? && section.items[i].JObj? &&
        SourceUrlsKey in out.items[i].fields &&
        (NeedsUrls(section.items[i].fields) ==>
          out.items[i].fields == section.items[i].fields[SourceUrlsKey := fill]) &&
        (!NeedsUrls(section.items[i].fields) ==> out.items[i] == section.items[i])
  {
  }

  /** Running the loop over its own output changes nothing. */
  lemma SectionSettles(section: Json, fill: Json)
    requires BackfilledSection(section, fill).Success?
    ensures Settled(BackfilledSection(section, fill).value, fill)
  {
    if section.JArr? {
      var items := section.items;
      var out := BackfilledSection(section, fill).value.items;
      forall i | 0 <= i < |out|
        ensures BackfillItem(out[i], fill).value == out[i]
      {
        assert out[i] == BackfillItem(items[i], fill).value;
        if NeedsUrls(items[i].fields) {
          assert out[i].fields == items[i].fields[SourceUrlsKey := fill];
          assert out[i].fields[SourceUrlsKey := fill] == out[i].fields;
        }
      }
      assert seq(|out|, i requires 0 <= i < |out| => BackfillItem(out[i], fill).value) == out;
    }
  }

  /** The four steps of a successful run, spelled out. */
  lemma StepsOfSuccess(result: map<string, Json>, fill: Json)
    requires StepsFrom(result, fill, 3).Success?
    ensures DynamicsStep(result, fill).Success?
    ensures var r1 := DynamicsStep(result, fill).value;
      SectionStep(r1, OpportunitiesKey, fill).Success? &&
      var r2 := SectionStep(r1, OpportunitiesKey, fill).value;
      SectionStep(r2, RisksKey, fill).Success? &&
      var r3 := SectionStep(r2, RisksKey, fill).value;
      SectionStep(r3, RecommendationsKey, fill) == StepsFrom(result, fill, 3)
  {
    assert StepsFrom(result, fill, 1).Success?;
    assert StepsFrom(result, fill, 2).Success?;
  }

  /** A successful backfill keeps every top-level key and changes nothing
      outside the four sections; each list section is the loop's output
      over the old section, and `market_dynamics` differs at most in
      `key_trends`, which is the loop's output over the old trends. */
  lemma BackfillFrame(result: map<string, Json>, sourceUrls: seq<string>)
    requires SourceUrlsAdded(result, sourceUrls).Success?
    ensures var r := SourceUrlsAdded(result, sourceUrls).value;
      var fill := Fill(sourceUrls);
      r.Keys == result.Keys &&
      (forall k :: k in result && k !in {DynamicsKey, OpportunitiesKey, RisksKey, RecommendationsKey} ==> r[k] == result[k]) &&
      (forall k :: k in ListSections && k in result ==> BackfilledSection(result[k], fill) == Success(r[k])) &&
      (DynamicsKey in result && PyIn(TrendsKey, result[DynamicsKey]) == Success(true) ==>
        result[DynamicsKey].JObj? && TrendsKey in result[DynamicsKey].fields &&
        BackfilledSection(result[DynamicsKey].fields[TrendsKey], fill).Success? &&
        r[DynamicsKey] == JObj(result[DynamicsKey].fields[TrendsKey :=
          BackfilledSection(result[DynamicsKey].fields[TrendsKey], fill).value])) &&
      (DynamicsKey in result && PyIn(TrendsKey, result[DynamicsKey]) == Success(false) ==>
        r[DynamicsKey] == result[DynamicsKey])
  {
    var fill := Fill(sourceUrls);
    StepsOfSuccess(result, fill);
  }

  /** Backfilling a backfilled reply changes nothing. */
  lemma BackfillIdempotent(result: map<string, Json>, sourceUrls: seq<string>)
    requires SourceUrlsAdded(result, sourceUrls).Success?
    ensures SourceUrlsAdded(SourceUrlsAdded(result, sourceUrls).value, sourceUrls) == SourceUrlsAdded(result, sourceUrls)
  {
    var fill := Fill(sourceUrls);
    var r := SourceUrlsAdded(result, sourceUrls).value;
    BackfillFrame(result, sourceUrls);
    StepsOfSuccess(result, fill);
    if DynamicsKey !in result {
      assert DynamicsKey !in r;
    } else if PyIn(TrendsKey, result[DynamicsKey]) == Success(false) {
      assert r[DynamicsKey] == result[DynamicsKey];
    } else {
      assert PyIn(TrendsKey, result[DynamicsKey]) == Success(true);
      var trends := result[DynamicsKey].fields[TrendsKey];
      var t2 := BackfilledSection(trends, fill).value;
      SectionSettles(trends, fill);
      var d2 := r[DynamicsKey];
      assert d2.fields[TrendsKey] == t2;
      assert PyIn(TrendsKey, d2) == Success(true);
      assert PyGetItem(d2, TrendsKey) == Success(t2);
      assert d2.fields[TrendsKey := t2] == d2.fields;
      assert r[DynamicsKey := JObj(d2.fields[TrendsKey := t2])] == r;
    }
    assert DynamicsStep(r, fill) == Success(r);
    forall k | k in ListSections && k in r
      ensures SectionStep(r, k, fill) == Success(r)
    {
      SectionSettles(result[k], fill);
      assert r[k := r[k]] == r;
    }
    assert ListSections[0] == OpportunitiesKey && ListSections[1] == RisksKey && ListSections[2] == RecommendationsKey;
    assert StepsFrom(r, fill, 1) == Success(r);
    assert StepsFrom(r, fill, 2) == Success(r);
  }
}
