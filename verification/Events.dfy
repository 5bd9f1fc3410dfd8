/** Published events: normalization, validation and the message sent for them. */
module Events {
  import opened Options
  import opened EventStream
  import opened Wire

  /** `data` is the payload once converted to text, if the event carries one. */
  datatype Event = Event(
    clientIDs: seq<string>,
    excludeClientIDs: seq<string>,
    name: string,
    data: Option<string>,
    retry: int,
    id: string,
    comment: string)

  datatype Invalid = NameBreak | IdBreak | NegativeRetry

  // ----------------------------------------------------------- uniqueStrings

  function Unique(values: seq<string>): (r: seq<string>) {
    if values == [] then []
    else
      var before, last := Unique(values[..|values| - 1]), values[|values| - 1];
      if last in before then before else before + [last]
  }

  predicate Distinct(values: seq<string>) {
    forall i, j :: 0 <= i < j < |values| ==> values[i] != values[j]
  }

  /** `pos` tells, for each element of `sub`, where it occurs in `values` for the first time; in order. */
  predicate FirstPositions(values: seq<string>, sub: seq<string>, pos: seq<nat>) {
    && |pos| == |sub|
    && (forall i :: 0 <= i < |sub| ==> pos[i] < |values| && values[pos[i]] == sub[i] && sub[i] !in values[..pos[i]])
    && (forall i, j :: 0 <= i < j < |sub| ==> pos[i] < pos[j])
  }

  lemma {:induction false} UniqueContains(values: seq<string>)
    ensures forall v :: v in Unique(values) <==> v in values
  {
    if values != [] {
      UniqueContains(values[..|values| - 1]);
      assert values == values[..|values| - 1] + [values[|values| - 1]];
    }
  }

  lemma {:induction false} UniqueDistinct(values: seq<string>)
    ensures Distinct(Unique(values))
  {
    if values != [] {
      UniqueDistinct(values[..|values| - 1]);
    }
  }

  /** `uniqueStrings` keeps the first occurrence of each value, in the order of those occurrences. */
  lemma {:induction false} UniqueKeepsFirsts(values: seq<string>) returns (pos: seq<nat>)
    ensures FirstPositions(values, Unique(values), pos)
  {
    if values == [] {
      pos := [];
    } else {
      var n := |values| - 1;
      pos := UniqueKeepsFirsts(values[..n]);
      assert forall k :: 0 <= k <= n ==> values[..n][..k] == values[..k];
      UniqueContains(values[..n]);
      if values[n] !in Unique(values[..n]) {
        pos := pos + [n];
      }
    }
  }

  lemma {:induction false} UniqueOfDistinct(values: seq<string>)
    requires Distinct(values)
    ensures Unique(values) == values
  {
    if values != [] {
      UniqueOfDistinct(values[..|values| - 1]);
      assert values == values[..|values| - 1] + [values[|values| - 1]];
    }
  }

  method UniqueStrings(values: seq<string>) returns (result: seq<string>)
    ensures result == Unique(values)
  {
    if values == [] {
      return [];
    }
    result := [];
    var seen: set<string> := {};
    for i := 0 to |values|
      invariant result == Unique(values[..i])
      invariant seen == set v | v in result
    {
      assert values[..i + 1][..i] == values[..i];
      if values[i] in seen {
        continue;
      }
      seen := seen + {values[i]};
      result := result + [values[i]];
    }
    assert values[..|values|] == values;
  }

  // ----------------------------------------------------------- normalizeEvent

  function Normalize(e: Event): (r: Event) {
    e.(name := if e.name == "" then DEFAULT_EVENT else e.name,
       clientIDs := Unique(e.clientIDs),
       excludeClientIDs := Unique(e.excludeClientIDs))
  }

  /** Only the name and the lists change: an empty name becomes "message", and each listed client is listed once. */
  lemma NormalizeMeans(e: Event)
    ensures Normalize(e).name == (if e.name == "" then "message" else e.name)
    ensures Normalize(e) == e.(name := Normalize(e).name, clientIDs := Normalize(e).clientIDs,
                               excludeClientIDs := Normalize(e).excludeClientIDs)
    ensures Distinct(Normalize(e).clientIDs) && Distinct(Normalize(e).excludeClientIDs)
    ensures forall id :: id in Normalize(e).clientIDs <==> id in e.clientIDs
    ensures forall id :: id in Normalize(e).excludeClientIDs <==> id in e.excludeClientIDs
  {
    UniqueContains(e.clientIDs);
    UniqueContains(e.excludeClientIDs);
    UniqueDistinct(e.clientIDs);
    UniqueDistinct(e.excludeClientIDs);
  }

  /** Publishing, storing and replaying each normalize again; that changes nothing. */
  lemma NormalizeIdempotent(e: Event)
    ensures Normalize(Normalize(e)) == Normalize(e)
  {
    UniqueDistinct(e.clientIDs);
    UniqueOfDistinct(Unique(e.clientIDs));
    UniqueDistinct(e.excludeClientIDs);
    UniqueOfDistinct(Unique(e.excludeClientIDs));
  }

  method NormalizeEvent(e: Event) returns (r: Event)
    ensures r == Normalize(e)
  {
    r := e;
    if r.name == "" {
      r := r.(name := DEFAULT_EVENT);
    }
    var ids := UniqueStrings(r.clientIDs);
    r := r.(clientIDs := ids);
    var excluded := UniqueStrings(r.excludeClientIDs);
    r := r.(excludeClientIDs := excluded);
  }

  // ------------------------------------------------------------ validateEvent

  function Validate(e: Event): (r: Option<Invalid>) {
    if '\r' in e.name || '\n' in e.name then Some(NameBreak)
    else if '\0' in e.id || '\r' in e.id || '\n' in e.id then Some(IdBreak)
    else if e.retry < 0 then Some(NegativeRetry)
    else None
  }

  /** The message `handle` and the replay build from an event. */
  function ToMessage(e: Event): (m: Message) {
    Message(e.name, if e.data.Some? then e.data.value else "", e.data.Some?, e.retry, e.id, e.comment)
  }

  /** The bus refuses exactly the events whose message the HTTP connection would refuse to encode. */
  lemma ValidatedIsAccepted(e: Event)
    ensures Validate(e).None? <==> Accepts(ToMessage(e))
  {
    var m := ToMessage(e);
    assert BreakFree(m.event) <==> '\r' !in e.name && '\n' !in e.name;
    assert BreakFree(m.id) <==> '\r' !in e.id && '\n' !in e.id;
  }

  /** Normalizing cannot make an event invalid, nor a bad one valid. */
  lemma NormalizeKeepsValidity(e: Event)
    ensures Validate(Normalize(e)) == Validate(e)
  {}
}
