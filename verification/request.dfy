/**
 Extraction of the four filter parameters from the agent's request event
 (infrastructure/lambda_function.py, lines 26-32).

 The event is a nested dictionary; the handler reads
 event['requestBody']['content']['application/json']['properties'], a list of
 {name, value} dictionaries, and flattens it into a dictionary. Every key it
 reads with `[...]` may be missing, which raises KeyError; every other shape
 error is left out, so each looked-up key is modelled as an `Option`.
 */
module Request {
  import opened Wrappers

  /** One entry of the properties list; either key may be missing. */
  datatype Property = Property(name: Option<string>, value: Option<string>)

  /** The value under 'application/json'. */
  datatype JsonContent = JsonContent(properties: Option<seq<Property>>)

  /** The value under 'content'. */
  datatype Content = Content(applicationJson: Option<JsonContent>)

  /** The value under 'requestBody'. */
  datatype RequestBody = RequestBody(content: Option<Content>)

  /** The Lambda event, reduced to the one key the handler reads. */
  datatype Event = Event(requestBody: Option<RequestBody>)

  /** The keys whose absence raises the KeyError the handler catches. */
  datatype Key = RequestBodyKey | ContentKey | ApplicationJsonKey | PropertiesKey | NameKey | ValueKey
  {
    /** The dictionary key as written in the handler. */
    function Text(): string
    {
      match this
      case RequestBodyKey => "requestBody"
      case ContentKey => "content"
      case ApplicationJsonKey => "application/json"
      case PropertiesKey => "properties"
      case NameKey => "name"
      case ValueKey => "value"
    }
  }

  /** The four partition values the query filters on. */
  datatype Filter = Filter(year: string, month: string, day: string, hour: string)

  /** The four partition dimensions, in the order their clauses are appended. */
  datatype Dim = Year | Month | Day | Hour
  {
    /** The dimension's name: the property name read on lines 29-32 and the column
        its clause constrains on lines 58-65. */
    function Name(): string
    {
      match this
      case Year => "year"
      case Month => "month"
      case Day => "day"
      case Hour => "hour"
    }

    /** Position in the fixed clause order. */
    function Rank(): nat
    {
      match this
      case Year => 0
      case Month => 1
      case Day => 2
      case Hour => 3
    }
  }

  /** The filter's value for one dimension. */
  function ValueOf(f: Filter, d: Dim): string
  {
    match d
    case Year => f.year
    case Month => f.month
    case Day => f.day
    case Hour => f.hour
  }

  const DefaultYear: string := "2024"
  const DefaultMonth: string := "10"
  const DefaultDay: string := "17"
  const DefaultHour: string := "01"

  /** Walks requestBody / content / application/json / properties; fails with the first missing key. */
  function PropertyList(e: Event): Result<seq<Property>, Key>
  {
    match e.requestBody
    case None => Err(RequestBodyKey)
    case Some(rb) =>
      match rb.content
      case None => Err(ContentKey)
      case Some(c) =>
        match c.applicationJson
        case None => Err(ApplicationJsonKey)
        case Some(j) =>
          match j.properties
          case None => Err(PropertiesKey)
          case Some(items) => Ok(items)
  }

  /** The dictionary comprehension {item['name']: item['value'] for item in items},
      evaluated left to right into `acc`; within one item the name is read before the value. */
  function Collect(items: seq<Property>, acc: map<string, string>): Result<map<string, string>, Key>
    decreases |items|
  {
    if |items| == 0 then Ok(acc)
    else
      match items[0].name
      case None => Err(NameKey)
      case Some(n) =>
        match items[0].value
        case None => Err(ValueKey)
        case Some(v) => Collect(items[1..], acc[n := v])
  }

  /** Python's dict.get(key, default). */
  function Get(m: map<string, string>, key: string, default: string): string
  {
    if key in m then m[key] else default
  }

  /** The filter built from the flattened parameters, with the defaults of lines 29-32. */
  function ToFilter(params: map<string, string>): Filter
  {
    Filter(Get(params, Year.Name(), DefaultYear), Get(params, Month.Name(), DefaultMonth),
           Get(params, Day.Name(), DefaultDay), Get(params, Hour.Name(), DefaultHour))
  }

  /** Lines 27-32: the filter, or the key whose absence raised KeyError. */
  function ExtractFilter(e: Event): Result<Filter, Key>
  {
    match PropertyList(e)
    case Err(k) => Err(k)
    case Ok(items) =>
      match Collect(items, map[])
      case Err(k) => Err(k)
      case Ok(params) => Ok(ToFilter(params))
  }

  // ---------------------------------------------------------------------------
  // Specification-side vocabulary

  /** Both keys of a property are present. */
  predicate Complete(p: Property)
  {
    p.name.Some? && p.value.Some?
  }

  /** The key the comprehension stops at when it reaches an incomplete item. */
  function MissingIn(p: Property): Key
  {
    if p.name.None? then NameKey else ValueKey
  }

  /** Item `i` carries name `k` and no later item does. */
  ghost predicate IsLastNamed(items: seq<Property>, i: int, k: string)
  {
    0 <= i < |items| && items[i].name == Some(k) &&
    forall j :: i < j < |items| ==> items[j].name != Some(k)
  }

  /** No item carries name `k`. */
  ghost predicate Unnamed(items: seq<Property>, k: string)
  {
    forall j :: 0 <= j < |items| ==> items[j].name != Some(k)
  }

  /** The value a filter field takes: that of the last item with that name, or the default. */
  ghost predicate Takes(items: seq<Property>, k: string, default: string, v: string)
  {
    && (Unnamed(items, k) ==> v == default)
    && (forall i :: IsLastNamed(items, i, k) ==> items[i].value == Some(v))
  }

  // ---------------------------------------------------------------------------
  // Properties of the comprehension

  /** The comprehension fails exactly when some item is incomplete, and then with the key
      missing from the FIRST incomplete item. */
  lemma {:induction false} CollectFailsAtFirstIncomplete(items: seq<Property>, acc: map<string, string>)
    ensures Collect(items, acc).Ok? <==> forall i :: 0 <= i < |items| ==> Complete(items[i])
    ensures Collect(items, acc).Err? ==>
              exists i :: 0 <= i < |items| && !Complete(items[i]) &&
                          (forall j :: 0 <= j < i ==> Complete(items[j])) &&
                          Collect(items, acc).error == MissingIn(items[i])
    decreases |items|
  {
    if |items| > 0 {
      if Complete(items[0]) {
        var acc' := acc[items[0].name.value := items[0].value.value];
        CollectFailsAtFirstIncomplete(items[1..], acc');
        assert Collect(items, acc) == Collect(items[1..], acc');
        if Collect(items, acc).Err? {
          var i :| 0 <= i < |items[1..]| && !Complete(items[1..][i]) &&
                   (forall j :: 0 <= j < i ==> Complete(items[1..][j])) &&
                   Collect(items[1..], acc').error == MissingIn(items[1..][i]);
          assert items[i + 1] == items[1..][i];
          assert forall j :: 0 <= j < i + 1 ==> Complete(items[j]) by {
            forall j | 0 <= j < i + 1 ensures Complete(items[j]) {
              if j > 0 { assert items[j] == items[1..][j - 1]; }
            }
          }
        } else {
          forall i | 0 <= i < |items| ensures Complete(items[i]) {
            if i > 0 { assert items[i] == items[1..][i - 1]; }
          }
        }
      }
    }
  }

  /** Every name present in the list, and only those (plus what was already collected),
      is a key of the result, and each key maps to the value of its LAST occurrence. */
  lemma {:induction false} CollectLastWins(items: seq<Property>, acc: map<string, string>, k: string)
    requires Collect(items, acc).Ok?
    ensures k in Collect(items, acc).value <==>
              k in acc || exists i :: 0 <= i < |items| && items[i].name == Some(k)
    ensures Unnamed(items, k) && k in acc ==> Collect(items, acc).value[k] == acc[k]
    ensures forall i :: IsLastNamed(items, i, k) ==> items[i].value == Some(Collect(items, acc).value[k])
    decreases |items|
  {
    if |items| > 0 {
      var n, v := items[0].name.value, items[0].value.value;
      var acc' := acc[n := v];
      var rest := items[1..];
      assert Collect(items, acc) == Collect(rest, acc');
      CollectLastWins(rest, acc', k);
      var m := Collect(items, acc).value;
      forall i | IsLastNamed(items, i, k) ensures items[i].value == Some(m[k]) {
        if i == 0 {
          forall j | 0 <= j < |rest| ensures rest[j].name != Some(k) {
            assert rest[j] == items[j + 1];
          }
        } else {
          assert IsLastNamed(rest, i - 1, k) by {
            forall j | i - 1 < j < |rest| ensures rest[j].name != Some(k) {
              assert rest[j] == items[j + 1];
            }
          }
        }
      }
      if exists i :: 0 <= i < |rest| && rest[i].name == Some(k) {
        var i :| 0 <= i < |rest| && rest[i].name == Some(k);
        assert items[i + 1] == rest[i];
      }
      if exists i :: 0 <= i < |items| && items[i].name == Some(k) {
        var i :| 0 <= i < |items| && items[i].name == Some(k);
        if i > 0 { assert rest[i - 1] == items[i]; }
      }
      if Unnamed(items, k) {
        assert items[0].name != Some(k);
        forall j | 0 <= j < |rest| ensures rest[j].name != Some(k) {
          assert rest[j] == items[j + 1];
        }
      }
    }
  }

  /** Appending a property whose name is not one of the four filter names leaves the
      extracted filter unchanged. */
  lemma {:induction false} CollectSnoc(items: seq<Property>, acc: map<string, string>, p: Property)
    requires Complete(p)
    ensures Collect(items + [p], acc) ==
              match Collect(items, acc)
              case Err(k) => Err(k)
              case Ok(m) => Ok(m[p.name.value := p.value.value])
    decreases |items|
  {
    if |items| == 0 {
      assert items + [p] == [p];
      assert [p][1..] == [];
    } else {
      assert (items + [p])[0] == items[0];
      assert (items + [p])[1..] == items[1..] + [p];
      if Complete(items[0]) {
        CollectSnoc(items[1..], acc[items[0].name.value := items[0].value.value], p);
      }
    }
  }

  /** `k` names one of the four dimensions. */
  predicate IsDimensionName(k: string)
  {
    exists d: Dim :: d.Name() == k
  }

  /** Lines 28-32: each filter field is the value of the last property with that name,
      or its default ('2024', '10', '17', '01') when no property has that name. */
  lemma FilterDefaults(e: Event)
    requires ExtractFilter(e).Ok?
    ensures var items, f := PropertyList(e).value, ExtractFilter(e).value;
            && Takes(items, "year", "2024", f.year)
            && Takes(items, "month", "10", f.month)
            && Takes(items, "day", "17", f.day)
            && Takes(items, "hour", "01", f.hour)
  {
    var items := PropertyList(e).value;
    CollectLastWins(items, map[], "year");
    CollectLastWins(items, map[], "month");
    CollectLastWins(items, map[], "day");
    CollectLastWins(items, map[], "hour");
  }

  /** Lines 27-28: extraction fails exactly when a key on the path or in some item is
      missing, and names the first missing key in evaluation order. */
  lemma ExtractFilterFails(e: Event)
    ensures e.requestBody.None? ==> ExtractFilter(e) == Err(RequestBodyKey)
    ensures e.requestBody.Some? && e.requestBody.value.content.None? ==>
              ExtractFilter(e) == Err(ContentKey)
    ensures e.requestBody.Some? && e.requestBody.value.content.Some? &&
            e.requestBody.value.content.value.applicationJson.None? ==>
              ExtractFilter(e) == Err(ApplicationJsonKey)
    ensures e.requestBody.Some? && e.requestBody.value.content.Some? &&
            e.requestBody.value.content.value.applicationJson.Some? &&
            e.requestBody.value.content.value.applicationJson.value.properties.None? ==>
              ExtractFilter(e) == Err(PropertiesKey)
    ensures PropertyList(e).Ok? ==>
              var items := PropertyList(e).value;
              && (ExtractFilter(e).Ok? <==> forall i :: 0 <= i < |items| ==> Complete(items[i]))
              && (ExtractFilter(e).Err? ==>
                    exists i :: 0 <= i < |items| && !Complete(items[i]) &&
                                (forall j :: 0 <= j < i ==> Complete(items[j])) &&
                                ExtractFilter(e).error == MissingIn(items[i]))
  {
    if PropertyList(e).Ok? {
      CollectFailsAtFirstIncomplete(PropertyList(e).value, map[]);
    }
  }

  /** Line 28: a property whose name is not one of the four filter names has no effect. */
  lemma ExtraNamesIgnored(items: seq<Property>, p: Property)
    requires Complete(p) && !IsDimensionName(p.name.value)
    ensures var e1 := Event(Some(RequestBody(Some(Content(Some(JsonContent(Some(items))))))));
            var e2 := Event(Some(RequestBody(Some(Content(Some(JsonContent(Some(items + [p]))))))));
            ExtractFilter(e1) == ExtractFilter(e2)
  {
    CollectSnoc(items, map[], p);
  }
}
