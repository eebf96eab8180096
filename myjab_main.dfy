/** The lookup script (myjab_main.py): name-to-id lookups over state and
    district records, the embedded fallback tables, and the script that
    fetches the states, falls back to the tables on any failure and resolves
    the configured state and district names. */
module MyjabMain {
  import opened CowinClient
  import opened FallbackTables

  // ---------------------------------------------------------------------------
  // Name normalisation

  /** `str.lower()` on one character, for ASCII letters only. */
  function LowerChar(c: char): char
  {
    if 'A' <= c <= 'Z' then (c as int - 'A' as int + 'a' as int) as char else c
  }

  /** `str.lower()`: ASCII upper-case letters become lower-case, every other
      character, the space included, stays as it is. */
  function Lower(s: string): (r: string)
    ensures |r| == |s|
    ensures forall i :: 0 <= i < |r| ==> !('A' <= r[i] <= 'Z')
    ensures forall i :: 0 <= i < |r| ==> (r[i] == ' ' <==> s[i] == ' ')
    ensures forall i :: 0 <= i < |r| && !('A' <= s[i] <= 'Z') ==> r[i] == s[i]
    ensures forall i :: 0 <= i < |r| && 'A' <= s[i] <= 'Z' ==> r[i] as int == s[i] as int + 32
  {
    seq(|s|, i requires 0 <= i < |s| => LowerChar(s[i]))
  }

  /** No character of `s` is a space. */
  predicate SpaceFree(s: string)
  {
    forall i :: 0 <= i < |s| ==> s[i] != ' '
  }

  /** `str.replace(" ", "")`: every space removed, everything else kept in order. */
  function RemoveSpaces(s: string): (r: string)
    ensures SpaceFree(r)
  {
    if s == [] then []
    else (if s[0] == ' ' then [] else [s[0]]) + RemoveSpaces(s[1..])
  }

  /** A name without spaces is left as it is. */
  lemma {:induction false} RemoveSpacesKeepsSpaceFree(s: string)
    requires SpaceFree(s)
    ensures RemoveSpaces(s) == s
  {
    if s != [] {
      RemoveSpacesKeepsSpaceFree(s[1..]);
      assert s == [s[0]] + s[1..];
    }
  }

  /** Removing spaces keeps every other character, as often as it occurs. */
  lemma {:induction false} RemoveSpacesKeepsOthers(s: string)
    ensures multiset(RemoveSpaces(s)) == multiset(s)[' ' := 0]
  {
    if s != [] {
      assert s == [s[0]] + s[1..];
      RemoveSpacesKeepsOthers(s[1..]);
    }
  }

  /** The comparison both lookups make: the stored name with its spaces
      removed and lower-cased against the query, only lower-cased. */
  predicate NameMatches(name: string, query: string)
  {
    Lower(RemoveSpaces(name)) == Lower(query)
  }

  /** The normalised stored name never contains a space. */
  lemma NormalizedNameHasNoSpace(name: string)
    ensures SpaceFree(Lower(RemoveSpaces(name)))
  {
  }

  // ---------------------------------------------------------------------------
  // Lookups (`getStateByID`, `getDistrictByID`)

  /** The id of the first state, in list order, whose name matches the query;
      `None` when no state matches. */
  function StateLookup(states: seq<State>, query: string): (r: Option<int>)
    ensures r.None? <==> forall i :: 0 <= i < |states| ==> !NameMatches(states[i].stateName, query)
    ensures forall i :: 0 <= i < |states| && NameMatches(states[i].stateName, query) &&
                        (forall j :: 0 <= j < i ==> !NameMatches(states[j].stateName, query))
                        ==> r == Some(states[i].stateId)
  {
    if states == [] then None
    else if NameMatches(states[0].stateName, query) then Some(states[0].stateId)
    else
      assert forall i :: 1 <= i < |states| ==> states[1..][i - 1] == states[i];
      StateLookup(states[1..], query)
  }

  /** The id of the first district, in list order, whose name matches the
      query; `None` when no district matches. */
  function DistrictLookup(districts: seq<District>, query: string): (r: Option<int>)
    ensures r.None? <==> forall i :: 0 <= i < |districts| ==> !NameMatches(districts[i].districtName, query)
    ensures forall i :: 0 <= i < |districts| && NameMatches(districts[i].districtName, query) &&
                        (forall j :: 0 <= j < i ==> !NameMatches(districts[j].districtName, query))
                        ==> r == Some(districts[i].districtId)
  {
    if districts == [] then None
    else if NameMatches(districts[0].districtName, query) then Some(districts[0].districtId)
    else
      assert forall i :: 1 <= i < |districts| ==> districts[1..][i - 1] == districts[i];
      DistrictLookup(districts[1..], query)
  }

  /** `getStateByID`: scans the list in order and returns the id of the first
      match. It has no `modifies` clause, so the list is only read. */
  method GetStateById(states: array<State>, findState: string) returns (stateId: Option<int>)
    ensures stateId == StateLookup(states[..], findState)
  {
    ghost var list := states[..];
    var i := 0;
    while i < states.Length
      invariant 0 <= i <= states.Length
      invariant forall j :: 0 <= j < i ==> !NameMatches(list[j].stateName, findState)
    {
      var stateName := states[i].stateName;
      if NameMatches(stateName, findState) {
        return Some(states[i].stateId);
      }
      i := i + 1;
    }
    return None;
  }

  /** `getDistrictByID`: the same scan over district records. */
  method GetDistrictById(districts: array<District>, findDistrict: string) returns (districtId: Option<int>)
    ensures districtId == DistrictLookup(districts[..], findDistrict)
  {
    ghost var list := districts[..];
    var i := 0;
    while i < districts.Length
      invariant 0 <= i <= districts.Length
      invariant forall j :: 0 <= j < i ==> !NameMatches(list[j].districtName, findDistrict)
    {
      var districtName := districts[i].districtName;
      if NameMatches(districtName, findDistrict) {
        return Some(districts[i].districtId);
      }
      i := i + 1;
    }
    return None;
  }

  /** Queries that are equal once lower-cased find the same state. */
  lemma {:induction false} StateLookupIgnoresQueryCase(states: seq<State>, q1: string, q2: string)
    requires Lower(q1) == Lower(q2)
    ensures StateLookup(states, q1) == StateLookup(states, q2)
  {
    if states != [] && !NameMatches(states[0].stateName, q1) {
      StateLookupIgnoresQueryCase(states[1..], q1, q2);
    }
  }

  /** Queries that are equal once lower-cased find the same district. */
  lemma {:induction false} DistrictLookupIgnoresQueryCase(districts: seq<District>, q1: string, q2: string)
    requires Lower(q1) == Lower(q2)
    ensures DistrictLookup(districts, q1) == DistrictLookup(districts, q2)
  {
    if districts != [] && !NameMatches(districts[0].districtName, q1) {
      DistrictLookupIgnoresQueryCase(districts[1..], q1, q2);
    }
  }

  /** Spaces are stripped from the stored name only, so a query that
      contains a space matches no record. */
  lemma SpacedQueryMatchesNothing(name: string, query: string)
    requires ' ' in query
    ensures !NameMatches(name, query)
  {
    NormalizedNameHasNoSpace(name);
    var i :| 0 <= i < |query| && query[i] == ' ';
    assert Lower(query)[i] == ' ';
  }

  /** A query with a space finds no state and no district. */
  lemma SpacedQueryFindsNothing(states: seq<State>, districts: seq<District>, query: string)
    requires ' ' in query
    ensures StateLookup(states, query) == None
    ensures DistrictLookup(districts, query) == None
  {
    forall i | 0 <= i < |states| ensures !NameMatches(states[i].stateName, query) {
      SpacedQueryMatchesNothing(states[i].stateName, query);
    }
    forall i | 0 <= i < |districts| ensures !NameMatches(districts[i].districtName, query) {
      SpacedQueryMatchesNothing(districts[i].districtName, query);
    }
  }

  /** When several states normalise to the same name, the earliest one's id
      is returned, whatever the ids of the later ones. */
  lemma {:induction false} EarliestDuplicateWins(states: seq<State>, query: string, k: nat, later: State)
    requires k < |states|
    requires NameMatches(states[k].stateName, query)
    requires NameMatches(later.stateName, query)
    ensures StateLookup(states + [later], query) == StateLookup(states, query)
    ensures StateLookup(states, query).Some?
  {
    if !NameMatches(states[0].stateName, query) {
      assert (states + [later])[1..] == states[1..] + [later];
      EarliestDuplicateWins(states[1..], query, k - 1, later);
    }
  }

  /** `getDistrictByID` behaves exactly as `getStateByID` on records that
      carry the same names and ids. */
  lemma {:induction false} DistrictLookupMirrorsStateLookup(states: seq<State>, districts: seq<District>, query: string)
    requires |states| == |districts|
    requires forall i :: 0 <= i < |states| ==>
      districts[i].districtName == states[i].stateName && districts[i].districtId == states[i].stateId
    ensures DistrictLookup(districts, query) == StateLookup(states, query)
  {
    if states != [] {
      DistrictLookupMirrorsStateLookup(states[1..], districts[1..], query);
    }
  }

  // ---------------------------------------------------------------------------
  // The script (myjab_main.py, lines 118-135)

  const MY_STATE: string := "madhyapradesh"
  const MY_DISTRICT: string := "gwalior"

  /** The state id as the Python value the script passes on. */
  function AsPyValue(id: Option<int>): (v: PyValue)
    ensures !v.PyStr?
  {
    match id
    case Some(n) => PyInt(n)
    case None => PyNone
  }

  /** Removing spaces distributes over concatenation. */
  lemma {:induction false} RemoveSpacesAppend(a: string, b: string)
    ensures RemoveSpaces(a + b) == RemoveSpaces(a) + RemoveSpaces(b)
  {
    if a == [] {
      assert a + b == b;
    } else {
      var head := if a[0] == ' ' then [] else [a[0]];
      assert (a + b)[0] == a[0];
      assert (a + b)[1..] == a[1..] + b;
      RemoveSpacesAppend(a[1..], b);
      assert RemoveSpaces(a + b) == head + RemoveSpaces(a[1..] + b);
    }
  }

  /** A stored name with no space among its first k + 1 characters, whose
      k-th character differs from the query's once lower-cased, does not match. */
  lemma MismatchAt(name: string, query: string, k: nat)
    requires k < |name| && k < |query|
    requires forall i :: 0 <= i <= k ==> name[i] != ' '
    requires LowerChar(name[k]) != LowerChar(query[k])
    ensures !NameMatches(name, query)
  {
    assert name == name[..k + 1] + name[k + 1..];
    RemoveSpacesAppend(name[..k + 1], name[k + 1..]);
    RemoveSpacesKeepsSpaceFree(name[..k + 1]);
    assert RemoveSpaces(name)[k] == name[k];
  }

  /** The first 19 states start with another letter than "madhyapradesh". */
  lemma StatesBeforeMadhyaPradeshDiffer()
    ensures forall j :: 0 <= j < 19 ==> !NameMatches(AllStates()[j].stateName, MY_STATE)
  {
    forall j | 0 <= j < 19 ensures !NameMatches(AllStates()[j].stateName, MY_STATE) {
      MismatchAt(AllStates()[j].stateName, MY_STATE, 0);
    }
  }

  /** A lone space is removed entirely. */
  lemma RemoveSpacesOfSpace()
    ensures RemoveSpaces([' ']) == []
  {
    assert [' '][1..] == [];
  }

  /** Removing the one space between two space-free words joins them. */
  lemma SingleSpaceRemoved(a: string, b: string)
    requires SpaceFree(a) && SpaceFree(b)
    ensures RemoveSpaces(a + [' '] + b) == a + b
  {
    var spaced := a + [' '];
    RemoveSpacesOfSpace();
    RemoveSpacesAppend(a, [' ']);
    RemoveSpacesKeepsSpaceFree(a);
    assert RemoveSpaces(spaced) == a;
    RemoveSpacesAppend(spaced, b);
    RemoveSpacesKeepsSpaceFree(b);
  }

  /** "Madhya Pradesh" matches "madhyapradesh": the space is dropped and
      the case folded. The name is a parameter fixed by the precondition,
      which keeps the verifier from evaluating the string functions on a
      literal. */
  lemma MadhyaPradeshMatches(name: string)
    requires name == "Madhya Pradesh"
    ensures NameMatches(name, MY_STATE)
  {
    assert name == "Madhya" + [' '] + "Pradesh";
    SingleSpaceRemoved("Madhya", "Pradesh");
  }

  /** The 20th state is Madhya Pradesh. */
  lemma TwentiethStateMatches()
    ensures NameMatches(AllStates()[19].stateName, MY_STATE)
  {
    MadhyaPradeshMatches(AllStates()[19].stateName);
  }

  /** "madhyapradesh" resolves to 20 in the fallback state table. */
  lemma AllStatesResolvesMyState()
    ensures StateLookup(AllStates(), MY_STATE) == Some(20)
  {
    StatesBeforeMadhyaPradeshDiffer();
    TwentiethStateMatches();
  }

  /** The first 17 districts start with another letter than "gwalior". */
  lemma DistrictsBeforeGunaDiffer()
    ensures forall j :: 0 <= j < 17 ==> !NameMatches(MpDistricts()[j].districtName, MY_DISTRICT)
  {
    forall j | 0 <= j < 17 ensures !NameMatches(MpDistricts()[j].districtName, MY_DISTRICT) {
      MismatchAt(MpDistricts()[j].districtName, MY_DISTRICT, 0);
    }
  }

  /** The 18th district, "Guna", differs from "gwalior" in its second letter. */
  lemma GunaDiffers()
    ensures !NameMatches(MpDistricts()[17].districtName, MY_DISTRICT)
  {
    MismatchAt(MpDistricts()[17].districtName, MY_DISTRICT, 1);
  }

  /** The 19th district, "Gwalior", matches "gwalior". */
  lemma GwaliorMatches()
    ensures NameMatches(MpDistricts()[18].districtName, MY_DISTRICT)
  {
    RemoveSpacesKeepsSpaceFree(MpDistricts()[18].districtName);
  }

  /** "gwalior" resolves to 313 in the fallback district table. */
  lemma MpDistrictsResolvesMyDistrict()
    ensures DistrictLookup(MpDistricts(), MY_DISTRICT) == Some(313)
  {
    DistrictsBeforeGunaDiffer();
    GunaDiffers();
    GwaliorMatches();
  }

  /** A fresh list holding `s`. */
  method NewList<T>(s: seq<T>) returns (a: array<T>)
    ensures a[..] == s
  {
    a := new T[|s|](i requires 0 <= i < |s| => s[i]);
  }

  /** The script (lines 118-135), for the configured names `myState` and
      `myDistrict`: fetch the states (the transport answers `statesAnswer`),
      falling back to the state table on any exception; look up the state;
      fetch its districts, falling back to the district table on any
      exception; look up the district. The district fetch always raises,
      because the state id is an int or `None`, so the district is always
      looked up in the fallback table, whatever the network does. */
  method RunScript(statesAnswer: Call<Response>, myState: string, myDistrict: string)
    returns (states: seq<State>, stateId: Option<int>, districts: seq<District>, districtId: Option<int>)
    ensures StatesOutcome(statesAnswer).Returned? ==> states == StatesOutcome(statesAnswer).value
    ensures StatesOutcome(statesAnswer).Raised? ==> states == AllStates()
    ensures stateId == StateLookup(states, myState)
    ensures districts == MpDistricts()
    ensures districtId == DistrictLookup(MpDistricts(), myDistrict)
  {
    var _, fetched := GetStates(statesAnswer);
    match fetched {
      case Returned(list) =>
        states := list;
      case Raised(_) =>
        states := AllStates();
    }
    var stateList := NewList(states);
    stateId := GetStateById(stateList, myState);

    var districtsCall := GetDistrictsList(AsPyValue(stateId));
    // the concatenation in get_districts_list raises, and the except takes over
    assert districtsCall.Raised?;
    districts := MpDistricts();
    var districtList := NewList(districts);
    districtId := GetDistrictById(districtList, myDistrict);
  }

  /** The script with the names it configures: a failed states fetch
      yields state 20, and the district is 313 whatever the fetch does. */
  method RunConfiguredScript(statesAnswer: Call<Response>) returns (stateId: Option<int>, districtId: Option<int>)
    ensures StatesOutcome(statesAnswer).Raised? ==> stateId == Some(20)
    ensures districtId == Some(313)
  {
    var states, districts;
    states, stateId, districts, districtId := RunScript(statesAnswer, MY_STATE, MY_DISTRICT);
    AllStatesResolvesMyState();
    MpDistrictsResolvesMyDistrict();
  }
}
