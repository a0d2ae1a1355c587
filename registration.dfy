/**
 * The dashboard-registration handler: the empty-field test, the merge of a
 * user's input into a stored configuration with its report of missing fields,
 * the currency filter, the country check that prefers the name lookup over the
 * ISO lookup, registration, deletion by path segment, and the method routing.
 *
 * The Firestore "Dashboard" collection is a sequence of documents in the order
 * its queries return them; every HTTP lookup is an oracle from the requested
 * URL to what `fetchURLdata` decoded from it.
 */
module Registration {
  import opened Text
  import opened Http
  import IdRetry

  // ---------------------------------------------------------------------------
  // Field values and isEmptyField

  /** The dynamic types `isEmptyField` tells apart; `Other` is any further type. */
  datatype Value = Str(s: string) | BoolRef(p: Option<bool>) | Strings(xs: seq<string>) | Other

  /** `isEmptyField`: an empty string, a nil `*bool`, or a zero-length `[]string`. */
  predicate IsEmptyField(v: Value) {
    match v
    case Str(s) => s == ""
    case BoolRef(p) => p.None?
    case Strings(xs) => |xs| == 0
    case Other => false
  }

  /** Exactly three values are empty; every value of another type is not. */
  lemma IsEmptyFieldExactly(v: Value)
    ensures IsEmptyField(v) <==> v == Str("") || v == BoolRef(None) || v == Strings([])
    ensures v.Other? ==> !IsEmptyField(v)
  {
  }

  /** The cases the empty-field tests list. */
  lemma IsEmptyFieldExamples()
    ensures IsEmptyField(Str("")) && !IsEmptyField(Str("test"))
    ensures IsEmptyField(BoolRef(None)) && !IsEmptyField(BoolRef(Some(false)))
    ensures IsEmptyField(Strings([])) && !IsEmptyField(Strings(["test"]))
    ensures !IsEmptyField(Other)
  {
  }

  // ---------------------------------------------------------------------------
  // Dashboard documents

  /** The feature switches of a configuration; a switch left out of the input is `None`. */
  datatype Features = Features(
    temperature: Option<bool>,
    precipitation: Option<bool>,
    capital: Option<bool>,
    coordinates: Option<bool>,
    population: Option<bool>,
    area: Option<bool>,
    targetCurrencies: seq<string>)

  /** A dashboard configuration as decoded from a request or stored in the collection. */
  datatype Doc = Doc(id: string, country: string, isoCode: string, features: Features)

  /** The fields `updatedData` checks, in the order it checks them. */
  const FieldNames: seq<string> :=
    ["Country", "IsoCode", "Area", "Capital", "Coordinates", "Precipitation", "Temperature", "Population", "Target Currencies"]

  type FieldIndex = k: int | 0 <= k < 9

  /** The value of the field named `FieldNames[k]`. */
  function FieldValue(d: Doc, k: FieldIndex): Value {
    match k
    case 0 => Str(d.country)
    case 1 => Str(d.isoCode)
    case 2 => BoolRef(d.features.area)
    case 3 => BoolRef(d.features.capital)
    case 4 => BoolRef(d.features.coordinates)
    case 5 => BoolRef(d.features.precipitation)
    case 6 => BoolRef(d.features.temperature)
    case 7 => BoolRef(d.features.population)
    case _ => Strings(d.features.targetCurrencies)
  }

  /** The report entry for field `k`: its name when it is empty. */
  function Part(d: Doc, k: FieldIndex): seq<string> {
    if IsEmptyField(FieldValue(d, k)) then [FieldNames[k]] else []
  }

  /** The names of the empty fields among fields `k` and later. */
  function MissingFrom(d: Doc, k: nat): seq<string>
    requires k <= 9
    decreases 9 - k
  {
    if k == 9 then [] else Part(d, k) + MissingFrom(d, k + 1)
  }

  /** The missing-field report of `updatedData` for the input `d`. */
  function Missing(d: Doc): seq<string> {
    MissingFrom(d, 0)
  }

  /** Names of the fields from `k` on, when all of them are empty. */
  lemma {:induction false} MissingFromAllEmpty(d: Doc, k: nat)
    requires k <= 9
    requires forall j: FieldIndex :: k <= j ==> IsEmptyField(FieldValue(d, j))
    ensures MissingFrom(d, k) == FieldNames[k..]
    decreases 9 - k
  {
    if k < 9 {
      MissingFromAllEmpty(d, k + 1);
      assert FieldNames[k..] == [FieldNames[k]] + FieldNames[k + 1..];
    }
  }

  lemma {:induction false} MissingFromNoneEmpty(d: Doc, k: nat)
    requires k <= 9
    requires forall j: FieldIndex :: k <= j ==> !IsEmptyField(FieldValue(d, j))
    ensures MissingFrom(d, k) == []
    decreases 9 - k
  {
    if k < 9 {
      MissingFromNoneEmpty(d, k + 1);
    }
  }

  lemma FieldNamesDistinct()
    ensures NoDup(FieldNames)
  {
  }

  lemma FieldPosition(k: FieldIndex)
    ensures FieldNames[k] in FieldNames && FirstIndex(FieldNames, FieldNames[k]) == k
  {
    FieldNamesDistinct();
    FirstIndexUnique(FieldNames, FieldNames[k], k);
  }

  /** `x` names an empty field of `d` at position `k` or later. */
  predicate NamesEmptyField(d: Doc, x: string, k: nat) {
    exists j: FieldIndex :: k <= j && x == FieldNames[j] && IsEmptyField(FieldValue(d, j))
  }

  lemma {:induction false} MissingFromMembers(d: Doc, k: nat)
    requires k <= 9
    ensures forall x :: x in MissingFrom(d, k) ==> NamesEmptyField(d, x, k)
    ensures forall j: FieldIndex :: k <= j && IsEmptyField(FieldValue(d, j)) ==> FieldNames[j] in MissingFrom(d, k)
    decreases 9 - k
  {
    if k < 9 {
      MissingFromMembers(d, k + 1);
      var head, tail := Part(d, k), MissingFrom(d, k + 1);
      assert MissingFrom(d, k) == head + tail;
      forall x | x in head + tail ensures NamesEmptyField(d, x, k) {
        if x in head {
          var j: FieldIndex := k;
          assert x == FieldNames[j] && IsEmptyField(FieldValue(d, j));
        } else {
          assert NamesEmptyField(d, x, k + 1);
        }
      }
    }
  }

  lemma MissingFromAfter(d: Doc, k: nat)
    requires k <= 9
    ensures forall x :: x in MissingFrom(d, k) ==> x in FieldNames && k <= FirstIndex(FieldNames, x)
  {
    MissingFromMembers(d, k);
    forall x | x in MissingFrom(d, k) ensures x in FieldNames && k <= FirstIndex(FieldNames, x) {
      assert NamesEmptyField(d, x, k);
      var j: FieldIndex :| k <= j && x == FieldNames[j] && IsEmptyField(FieldValue(d, j));
      FieldPosition(j);
    }
  }

  lemma {:induction false} MissingFromOrder(d: Doc, k: nat)
    requires k <= 9
    ensures InFirstOccurrenceOrder(MissingFrom(d, k), FieldNames)
    decreases 9 - k
  {
    if k < 9 {
      MissingFromOrder(d, k + 1);
      MissingFromAfter(d, k + 1);
      FieldPosition(k);
      OrderCons(Part(d, k), MissingFrom(d, k + 1), FieldNames, k);
    }
  }

  /**
   * The report lists exactly the names of the empty input fields, each once,
   * in the fixed order of `FieldNames`; it is empty exactly when every field is filled.
   */
  lemma MissingSpec(d: Doc)
    ensures forall x :: x in Missing(d) <==> exists j: FieldIndex :: x == FieldNames[j] && IsEmptyField(FieldValue(d, j))
    ensures InFirstOccurrenceOrder(Missing(d), FieldNames)
    ensures NoDup(Missing(d))
    ensures Missing(d) == [] <==> forall j: FieldIndex :: !IsEmptyField(FieldValue(d, j))
  {
    MissingMembers(d);
    MissingFromOrder(d, 0);
    OrderedNoDup(Missing(d), FieldNames);
    MissingEmpty(d);
  }

  lemma MissingMembers(d: Doc)
    ensures forall x :: x in Missing(d) <==> exists j: FieldIndex :: x == FieldNames[j] && IsEmptyField(FieldValue(d, j))
  {
    MissingFromMembers(d, 0);
    forall x | x in Missing(d) ensures exists j: FieldIndex :: x == FieldNames[j] && IsEmptyField(FieldValue(d, j)) {
      assert NamesEmptyField(d, x, 0);
    }
  }

  lemma MissingEmpty(d: Doc)
    ensures Missing(d) == [] <==> forall j: FieldIndex :: !IsEmptyField(FieldValue(d, j))
  {
    MissingFromMembers(d, 0);
    if Missing(d) != [] {
      assert Missing(d)[0] in Missing(d);
    }
  }

  /** An input with every field empty misses all nine. */
  lemma AllEmptyMissesAll(d: Doc)
    requires d.country == "" && d.isoCode == ""
    requires d.features == Features(None, None, None, None, None, None, [])
    ensures Missing(d) == FieldNames
  {
    MissingFromAllEmpty(d, 0);
  }

  /** An input with only the country and the ISO code empty misses exactly those two. */
  lemma CountryAndIsoMissing(d: Doc)
    requires d.country == "" && d.isoCode == ""
    requires forall j: FieldIndex :: 2 <= j ==> !IsEmptyField(FieldValue(d, j))
    ensures Missing(d) == ["Country", "IsoCode"]
  {
    MissingFromNoneEmpty(d, 2);
    assert MissingFrom(d, 1) == ["IsoCode"] + MissingFrom(d, 2);
    assert MissingFrom(d, 0) == ["Country"] + MissingFrom(d, 1);
  }

  // ---------------------------------------------------------------------------
  // checkCurrencies

  /** The request codes of length 3, upper-cased, in request order. */
  function Upper3(arr: seq<string>): seq<string>
    decreases |arr|
  {
    if |arr| == 0 then []
    else
      var last := arr[|arr| - 1];
      Upper3(arr[..|arr| - 1]) + (if |last| == 3 then [ToUpper(last)] else [])
  }

  /** The codes `checkCurrencies` asks the currency service about, in order. */
  function Candidates(arr: seq<string>): seq<string> {
    Dedup(Upper3(arr))
  }

  /** The candidates whose lookup answered with result "success". */
  function Accepted(cands: seq<string>, api: string -> Fetch<string>): seq<string>
    decreases |cands|
  {
    if |cands| == 0 then []
    else
      var last := cands[|cands| - 1];
      Accepted(cands[..|cands| - 1], api) + (if api(CurrencyApi + last) == Fetched("success") then [last] else [])
  }

  /** The position of the first candidate whose lookup failed, or `|cands|`. */
  function FirstFailed(cands: seq<string>, api: string -> Fetch<string>): (k: nat)
    ensures k <= |cands|
    ensures forall j :: 0 <= j < k ==> api(CurrencyApi + cands[j]).Fetched?
    ensures k < |cands| ==> api(CurrencyApi + cands[k]).Failed?
    decreases |cands|
  {
    if |cands| == 0 then 0
    else
      var k := FirstFailed(cands[..|cands| - 1], api);
      if k < |cands| - 1 then k
      else if api(CurrencyApi + cands[|cands| - 1]).Failed? then |cands| - 1
      else |cands|
  }

  /** The outcome of `checkCurrencies`: its result (`None` for nil) and the writer after it. */
  datatype CurrencyCheck = CurrencyCheck(valid: Option<seq<string>>, w: Writer)

  function CheckedCurrencies(arr: seq<string>, api: string -> Fetch<string>, w: Writer): CurrencyCheck {
    var cands := Candidates(arr);
    var k := FirstFailed(cands, api);
    if k < |cands| then
      CurrencyCheck(None, Error(FetchFailed(w, CurrencyApi + cands[k], api(CurrencyApi + cands[k]).error),
                                "Failed to retrieve currency", StatusBadRequest))
    else CurrencyCheck(Some(Accepted(cands, api)), w)
  }

  /** The result of `checkCurrencies`, which does not depend on what was written before. */
  function ValidCurrencies(arr: seq<string>, api: string -> Fetch<string>): Option<seq<string>> {
    CheckedCurrencies(arr, api, Fresh).valid
  }

  lemma ValidCurrenciesAnyWriter(arr: seq<string>, api: string -> Fetch<string>, w: Writer)
    ensures CheckedCurrencies(arr, api, w).valid == ValidCurrencies(arr, api)
  {
  }

  /** The codes whose lookups `checkCurrencies` makes: the candidates up to the first failure. */
  function Queried(arr: seq<string>, api: string -> Fetch<string>): seq<string> {
    var cands := Candidates(arr);
    var k := FirstFailed(cands, api);
    if k < |cands| then cands[..k + 1] else cands
  }

  lemma Upper3Snoc(arr: seq<string>, c: string)
    ensures Upper3(arr + [c]) == Upper3(arr) + (if |c| == 3 then [ToUpper(c)] else [])
  {
    assert (arr + [c])[..|arr|] == arr;
  }

  /** A request code yields a candidate exactly when it has three characters. */
  lemma {:induction false} Upper3Spec(arr: seq<string>)
    ensures forall x :: x in Upper3(arr) <==> exists a :: a in arr && |a| == 3 && ToUpper(a) == x
    ensures forall i :: 0 <= i < |Upper3(arr)| ==> |Upper3(arr)[i]| == 3
    decreases |arr|
  {
    if |arr| > 0 {
      var init, last := arr[..|arr| - 1], arr[|arr| - 1];
      assert arr == init + [last];
      Upper3Spec(init);
      forall x ensures x in Upper3(arr) <==> exists a :: a in arr && |a| == 3 && ToUpper(a) == x {
        if x in Upper3(arr) {
          if x in Upper3(init) {
            var a :| a in init && |a| == 3 && ToUpper(a) == x;
            assert a in arr;
          } else {
            assert last in arr;
          }
        }
        if exists a :: a in arr && |a| == 3 && ToUpper(a) == x {
          var a :| a in arr && |a| == 3 && ToUpper(a) == x;
          if a != last {
            assert a in init;
          }
        }
      }
    }
  }

  lemma DedupSnoc<T>(s: seq<T>, x: T)
    ensures Dedup(s + [x]) == if x in Dedup(s) then Dedup(s) else Dedup(s) + [x]
  {
    assert (s + [x])[..|s|] == s;
  }

  lemma AcceptedSnoc(cands: seq<string>, c: string, api: string -> Fetch<string>)
    ensures Accepted(cands + [c], api) == Accepted(cands, api) + (if api(CurrencyApi + c) == Fetched("success") then [c] else [])
  {
    assert (cands + [c])[..|cands|] == cands;
  }

  lemma {:induction false} DedupPrefix<T>(s: seq<T>, t: seq<T>)
    ensures |Dedup(s)| <= |Dedup(s + t)| && Dedup(s + t)[..|Dedup(s)|] == Dedup(s)
    decreases |t|
  {
    if |t| > 0 {
      var t', x := t[..|t| - 1], t[|t| - 1];
      assert s + t == (s + t') + [x];
      DedupPrefix(s, t');
      DedupSnoc(s + t', x);
      var a := Dedup(s + t');
      assert (a + [x])[..|Dedup(s)|] == a[..|Dedup(s)|];
    } else {
      assert s + t == s;
    }
  }

  lemma {:induction false} Upper3Prefix(arr: seq<string>, n: nat)
    requires n <= |arr|
    ensures |Upper3(arr[..n])| <= |Upper3(arr)| && Upper3(arr)[..|Upper3(arr[..n])|] == Upper3(arr[..n])
    decreases |arr| - n
  {
    if n < |arr| {
      Upper3Prefix(arr[..|arr| - 1], n);
      assert arr[..|arr| - 1][..n] == arr[..n];
    } else {
      assert arr[..n] == arr;
    }
  }

  /** What `checkCurrencies` has asked after the first `n` request codes is a prefix of all it would ask. */
  lemma CandidatesPrefix(arr: seq<string>, n: nat)
    requires n <= |arr|
    ensures |Candidates(arr[..n])| <= |Candidates(arr)|
    ensures Candidates(arr)[..|Candidates(arr[..n])|] == Candidates(arr[..n])
  {
    var u, p := Upper3(arr), Upper3(arr[..n]);
    Upper3Prefix(arr, n);
    assert u == p + u[|p|..];
    DedupPrefix(p, u[|p|..]);
  }

  lemma FirstFailedAt(cands: seq<string>, api: string -> Fetch<string>, k: nat)
    requires k < |cands| && api(CurrencyApi + cands[k]).Failed?
    requires forall j :: 0 <= j < k ==> api(CurrencyApi + cands[j]).Fetched?
    ensures FirstFailed(cands, api) == k
  {
  }

  lemma {:induction false} AcceptedMembers(cands: seq<string>, api: string -> Fetch<string>)
    ensures forall x :: x in Accepted(cands, api) <==> x in cands && api(CurrencyApi + x) == Fetched("success")
    decreases |cands|
  {
    if |cands| > 0 {
      var init, last := cands[..|cands| - 1], cands[|cands| - 1];
      assert cands == init + [last];
      AcceptedMembers(init, api);
    }
  }

  lemma AcceptedElem(cands: seq<string>, api: string -> Fetch<string>, i: nat)
    requires i < |Accepted(cands, api)|
    ensures Accepted(cands, api)[i] in cands
  {
    AcceptedMembers(cands, api);
    var y := Accepted(cands, api)[i];
    assert y in Accepted(cands, api);
  }

  /** Filtering keeps the order of what it keeps. */
  lemma {:induction false} AcceptedOrder(cands: seq<string>, s: seq<string>, api: string -> Fetch<string>)
    requires InFirstOccurrenceOrder(cands, s)
    ensures InFirstOccurrenceOrder(Accepted(cands, api), s)
    decreases |cands|
  {
    if |cands| > 0 {
      var init, last := cands[..|cands| - 1], cands[|cands| - 1];
      assert cands == init + [last];
      assert InFirstOccurrenceOrder(init, s) by {
        forall i, j | 0 <= i < j < |init|
          ensures init[i] in s && init[j] in s && FirstIndex(s, init[i]) < FirstIndex(s, init[j])
        {
          assert init[i] == cands[i] && init[j] == cands[j];
        }
      }
      AcceptedOrder(init, s, api);
      var a := Accepted(init, api);
      if api(CurrencyApi + last) == Fetched("success") {
        assert Accepted(cands, api) == a + [last];
        assert cands[|cands| - 1] == last && last in s;
        forall y | y in a ensures y in s && FirstIndex(s, y) < FirstIndex(s, last) {
          AcceptedMembers(init, api);
          var k :| 0 <= k < |init| && init[k] == y;
          assert cands[k] == y;
        }
        OrderSnoc(a, last, s);
      } else {
        assert Accepted(cands, api) == a;
      }
    }
  }

  /**
   * `checkCurrencies` returns nil exactly when the lookup of some candidate
   * failed; otherwise it returns, without writing anything, the upper-cased
   * three-letter codes the service accepted, each once, in the order of their
   * first occurrence in the request.
   */
  lemma CheckedCurrenciesSpec(arr: seq<string>, api: string -> Fetch<string>, w: Writer)
    ensures CheckedCurrencies(arr, api, w).valid.None? <==> exists c :: c in Upper3(arr) && api(CurrencyApi + c).Failed?
    ensures CheckedCurrencies(arr, api, w).valid.Some? ==> CheckedCurrencies(arr, api, w).w == w
    ensures CheckedCurrencies(arr, api, w).valid.Some? ==> var v := CheckedCurrencies(arr, api, w).valid.value;
      && (forall x :: x in v <==> x in Upper3(arr) && api(CurrencyApi + x) == Fetched("success"))
      && NoDup(v)
      && InFirstOccurrenceOrder(v, Upper3(arr))
      && (forall i :: 0 <= i < |v| ==> |v[i]| == 3 && v[i] == ToUpper(v[i]))
  {
    var u := Upper3(arr);
    var cands := Candidates(arr);
    DedupSpec(u);
    Upper3Spec(arr);
    var k := FirstFailed(cands, api);
    if k < |cands| {
      assert cands[k] in u;
    } else {
      forall c | c in u ensures api(CurrencyApi + c).Fetched? {
        var j := FirstIndex(cands, c);
      }
      var v := Accepted(cands, api);
      AcceptedMembers(cands, api);
      AcceptedOrder(cands, u, api);
      OrderedNoDup(v, u);
      forall i | 0 <= i < |v| ensures |v[i]| == 3 && v[i] == ToUpper(v[i]) {
        var x := v[i];
        assert x in v;
        var a :| a in arr && |a| == 3 && ToUpper(a) == x;
        ToUpperIdempotent(a);
      }
    }
  }

  lemma QueriedSpec(arr: seq<string>, api: string -> Fetch<string>)
    ensures NoDup(Queried(arr, api))
    ensures forall x :: x in Queried(arr, api) ==> x in Upper3(arr)
  {
    var u := Upper3(arr);
    DedupSpec(u);
    var q := Queried(arr, api);
    var cands := Candidates(arr);
    assert forall i :: 0 <= i < |q| ==> q[i] == cands[i];
    forall x | x in q ensures x in u {
      var i :| 0 <= i < |q| && q[i] == x;
      assert cands[i] in cands;
    }
  }

  /** The request of the currency test: two accepted codes and one of the wrong length. */
  lemma CheckCurrenciesExample(api: string -> Fetch<string>, w: Writer)
    requires api(CurrencyApi + "NOK") == Fetched("success") && api(CurrencyApi + "EUR") == Fetched("success")
    ensures CheckedCurrencies(["NOK", "EUR", "INVALID"], api, w) == CurrencyCheck(Some(["NOK", "EUR"]), w)
  {
    var arr := ["NOK", "EUR", "INVALID"];
    ToUpperKeepsUpper("NOK");
    ToUpperKeepsUpper("EUR");
    assert arr[..2][..1] == arr[..1] && arr[..1][..0] == [];
    assert Upper3(arr[..1]) == ["NOK"];
    assert Upper3(arr[..2]) == ["NOK", "EUR"];
    assert arr[..3] == arr && arr[..3][..2] == arr[..2];
    assert Upper3(arr) == ["NOK", "EUR"];
    var u := ["NOK", "EUR"];
    assert u[..1] == ["NOK"] && u[..1][..0] == [];
    assert Dedup(u) == u;
    assert FirstFailed(u[..1], api) == 1;
    assert FirstFailed(u, api) == 2;
    assert Accepted(u[..1], api) == ["NOK"];
  }

  /** One more request code adds its upper-cased form to the candidates, unless it is seen or of the wrong length. */
  lemma CandidatesSnoc(arr: seq<string>, i: nat)
    requires i < |arr|
    ensures |arr[i]| != 3 ==> Candidates(arr[..i + 1]) == Candidates(arr[..i])
    ensures |arr[i]| == 3 && ToUpper(arr[i]) in Candidates(arr[..i]) ==> Candidates(arr[..i + 1]) == Candidates(arr[..i])
    ensures |arr[i]| == 3 && ToUpper(arr[i]) !in Candidates(arr[..i]) ==> Candidates(arr[..i + 1]) == Candidates(arr[..i]) + [ToUpper(arr[i])]
  {
    assert arr[..i + 1] == arr[..i] + [arr[i]];
    Upper3Snoc(arr[..i], arr[i]);
    if |arr[i]| != 3 {
      assert Upper3(arr[..i + 1]) == Upper3(arr[..i]);
    } else {
      DedupSnoc(Upper3(arr[..i]), ToUpper(arr[i]));
    }
  }

  lemma FirstFailedSnoc(q: seq<string>, c: string, api: string -> Fetch<string>)
    requires FirstFailed(q, api) == |q|
    ensures FirstFailed(q + [c], api) == if api(CurrencyApi + c).Failed? then |q| else |q| + 1
  {
    assert (q + [c])[..|q|] == q;
  }

  /** A failed lookup after error-free ones is the first failure among all candidates. */
  lemma CheckedCurrenciesStops(arr: seq<string>, i: nat, api: string -> Fetch<string>, w: Writer)
    requires i < |arr|
    requires |Candidates(arr[..i + 1])| > 0
    requires var q := Candidates(arr[..i + 1]);
      && FirstFailed(q[..|q| - 1], api) == |q| - 1
      && api(CurrencyApi + q[|q| - 1]).Failed?
    ensures var q := Candidates(arr[..i + 1]);
      && CheckedCurrencies(arr, api, w) == CurrencyCheck(None,
           Error(FetchFailed(w, CurrencyApi + q[|q| - 1], api(CurrencyApi + q[|q| - 1]).error),
                 "Failed to retrieve currency", StatusBadRequest))
      && Queried(arr, api) == q
  {
    var q := Candidates(arr[..i + 1]);
    CandidatesPrefix(arr, i + 1);
    var cands := Candidates(arr);
    assert forall j :: 0 <= j < |q| ==> cands[j] == q[j];
    assert forall j :: 0 <= j < |q| - 1 ==> q[..|q| - 1][j] == q[j];
    FirstFailedAt(cands, api, |q| - 1);
    assert cands[..|q|] == q;
  }

  lemma CheckedCurrenciesCompletes(arr: seq<string>, api: string -> Fetch<string>, w: Writer)
    requires FirstFailed(Candidates(arr[..|arr|]), api) == |Candidates(arr[..|arr|])|
    ensures CheckedCurrencies(arr, api, w) == CurrencyCheck(Some(Accepted(Candidates(arr), api)), w)
    ensures Queried(arr, api) == Candidates(arr)
  {
    assert arr[..|arr|] == arr;
  }

  /**
   * `checkCurrencies`: one pass over the request, marking each upper-cased
   * code as seen before its lookup, so a repeated code is never asked twice.
   */
  method CheckCurrencies(arr: seq<string>, api: string -> Fetch<string>, w0: Writer)
    returns (valid: Option<seq<string>>, queried: seq<string>, w: Writer)
    ensures CurrencyCheck(valid, w) == CheckedCurrencies(arr, api, w0)
    ensures queried == Queried(arr, api)
  {
    var seen: set<string> := {};
    var kept: seq<string> := [];
    queried := [];
    w := w0;
    for i := 0 to |arr|
      invariant queried == Candidates(arr[..i])
      invariant forall c :: c in seen <==> c in queried
      invariant FirstFailed(queried, api) == |queried|
      invariant kept == Accepted(queried, api)
      invariant w == w0
    {
      CandidatesSnoc(arr, i);
      var currency := arr[i];
      if |currency| != 3 {
        continue;
      }
      var code := ToUpper(currency);
      if code !in seen {
        seen := seen + {code};
        AcceptedSnoc(queried, code, api);
        FirstFailedSnoc(queried, code, api);
        assert (queried + [code])[..|queried|] == queried;
        queried := queried + [code];
        var reply := api(CurrencyApi + code);
        if reply.Failed? {
          w := Error(FetchFailed(w, CurrencyApi + code, reply.error), "Failed to retrieve currency", StatusBadRequest);
          CheckedCurrenciesStops(arr, i, api, w0);
          return None, queried, w;
        }
        if reply.value != "success" {
          continue;
        }
        kept := kept + [code];
      }
    }
    assert arr[..|arr|] == arr;
    CheckedCurrenciesCompletes(arr, api, w0);
    valid := Some(kept);
  }

  // ---------------------------------------------------------------------------
  // updatedData

  /** A `utils.Firestore` value, which `updatedData` changes through a pointer. */
  class Record {
    var id: string
    var country: string
    var isoCode: string
    var features: Features

    constructor (d: Doc)
      ensures Snapshot() == d
    {
      id, country, isoCode, features := d.id, d.country, d.isoCode, d.features;
    }

    function Snapshot(): Doc
      reads this
    {
      Doc(id, country, isoCode, features)
    }
  }

  function Keep(input: Option<bool>, stored: Option<bool>): Option<bool> {
    if input.Some? then input else stored
  }

  /**
   * The document `updatedData` leaves behind: each filled input field replaces
   * the stored one, and filled target currencies are replaced by what
   * `checkCurrencies` makes of them (nil, here the empty sequence, on a failure).
   */
  function Merged(target: Doc, input: Doc, api: string -> Fetch<string>): Doc {
    var f, g := target.features, input.features;
    Doc(target.id,
        if input.country == "" then target.country else input.country,
        if input.isoCode == "" then target.isoCode else input.isoCode,
        Features(Keep(g.temperature, f.temperature), Keep(g.precipitation, f.precipitation),
                 Keep(g.capital, f.capital), Keep(g.coordinates, f.coordinates),
                 Keep(g.population, f.population), Keep(g.area, f.area),
                 if g.targetCurrencies == [] then f.targetCurrencies
                 else OrEmpty(ValidCurrencies(g.targetCurrencies, api))))
  }

  /** What `updatedData` writes: only `checkCurrencies` writes, when the input names currencies. */
  function MergeWrites(input: Doc, api: string -> Fetch<string>, w: Writer): Writer {
    if input.features.targetCurrencies == [] then w else CheckedCurrencies(input.features.targetCurrencies, api, w).w
  }

  /**
   * Field by field, the merge takes the input's value when it is not empty and
   * keeps the stored one otherwise; the identifier is never touched.
   */
  lemma MergedSpec(target: Doc, input: Doc, api: string -> Fetch<string>)
    ensures Merged(target, input, api).id == target.id
    ensures forall k: FieldIndex :: k < 8 ==>
      FieldValue(Merged(target, input, api), k) ==
        if IsEmptyField(FieldValue(input, k)) then FieldValue(target, k) else FieldValue(input, k)
    ensures FieldValue(Merged(target, input, api), 8) ==
      if IsEmptyField(FieldValue(input, 8)) then FieldValue(target, 8)
      else Strings(OrEmpty(ValidCurrencies(input.features.targetCurrencies, api)))
  {
  }

  /** An input with nothing filled in changes nothing and writes nothing. */
  lemma MergeEmptyInput(target: Doc, input: Doc, api: string -> Fetch<string>, w: Writer)
    requires forall k: FieldIndex :: IsEmptyField(FieldValue(input, k))
    ensures Merged(target, input, api) == target
    ensures MergeWrites(input, api, w) == w
  {
    assert IsEmptyField(FieldValue(input, 0)) && IsEmptyField(FieldValue(input, 1));
    assert IsEmptyField(FieldValue(input, 2)) && IsEmptyField(FieldValue(input, 3));
    assert IsEmptyField(FieldValue(input, 4)) && IsEmptyField(FieldValue(input, 5));
    assert IsEmptyField(FieldValue(input, 6)) && IsEmptyField(FieldValue(input, 7));
    assert IsEmptyField(FieldValue(input, 8));
  }

  /** A fully filled input replaces every field but the identifier. */
  lemma MergeFullInput(target: Doc, input: Doc, api: string -> Fetch<string>)
    requires forall k: FieldIndex :: !IsEmptyField(FieldValue(input, k))
    ensures Merged(target, input, api) ==
      input.(id := target.id, features := input.features.(targetCurrencies := OrEmpty(ValidCurrencies(input.features.targetCurrencies, api))))
  {
    assert !IsEmptyField(FieldValue(input, 0)) && !IsEmptyField(FieldValue(input, 1));
    assert !IsEmptyField(FieldValue(input, 2)) && !IsEmptyField(FieldValue(input, 3));
    assert !IsEmptyField(FieldValue(input, 4)) && !IsEmptyField(FieldValue(input, 5));
    assert !IsEmptyField(FieldValue(input, 6)) && !IsEmptyField(FieldValue(input, 7));
    assert !IsEmptyField(FieldValue(input, 8));
  }

  /**
   * One block of `updatedData` for the text field `k` of `d`: keep the input's
   * value when it is not empty, or else raise the flag and add the field's name
   * to the report, which then covers the fields up to `k`.
   */
  method CopyText(stored: string, given: string, ghost d: Doc, k: FieldIndex, check: bool, missing: seq<string>)
    returns (kept: string, check': bool, missing': seq<string>)
    requires FieldValue(d, k) == Str(given)
    requires missing == MissingUpTo(d, k) && (check <==> |missing| > 0)
    ensures kept == if given == "" then stored else given
    ensures missing' == MissingUpTo(d, k + 1) && (check' <==> |missing'| > 0)
  {
    kept, check', missing' := stored, check, missing;
    if !IsEmptyField(Str(given)) {
      kept := given;
    } else {
      check' := true;
      missing' := missing' + [FieldNames[k]];
    }
  }

  /** The same block for a feature switch. */
  method CopySwitch(stored: Option<bool>, given: Option<bool>, ghost d: Doc, k: FieldIndex, check: bool, missing: seq<string>)
    returns (kept: Option<bool>, check': bool, missing': seq<string>)
    requires FieldValue(d, k) == BoolRef(given)
    requires missing == MissingUpTo(d, k) && (check <==> |missing| > 0)
    ensures kept == Keep(given, stored)
    ensures missing' == MissingUpTo(d, k + 1) && (check' <==> |missing'| > 0)
  {
    kept, check', missing' := stored, check, missing;
    if !IsEmptyField(BoolRef(given)) {
      kept := given;
    } else {
      check' := true;
      missing' := missing' + [FieldNames[k]];
    }
  }

  /**
   * The last block, for the target currencies: a filled list is replaced by the
   * codes `checkCurrencies` accepts, and only then is anything written.
   */
  method CopyCurrencies(stored: seq<string>, given: seq<string>, api: string -> Fetch<string>, w0: Writer,
                        ghost d: Doc, check: bool, missing: seq<string>)
    returns (kept: seq<string>, check': bool, missing': seq<string>, w: Writer)
    requires FieldValue(d, 8) == Strings(given)
    requires missing == MissingUpTo(d, 8) && (check <==> |missing| > 0)
    ensures kept == if given == [] then stored else OrEmpty(ValidCurrencies(given, api))
    ensures w == if given == [] then w0 else CheckedCurrencies(given, api, w0).w
    ensures missing' == MissingUpTo(d, 9) && (check' <==> |missing'| > 0)
  {
    kept, check', missing', w := stored, check, missing, w0;
    if !IsEmptyField(Strings(given)) {
      var valid, _, w1 := CheckCurrencies(given, api, w0);
      ValidCurrenciesAnyWriter(given, api, w0);
      kept := OrEmpty(valid);
      w := w1;
    } else {
      check' := true;
      missing' := missing' + [FieldNames[8]];
    }
  }

  /**
   * The blocks of `updatedData` in order, on the values of the two records:
   * the merged document, the flag, the report, and what was written.
   */
  method MergeFields(target: Doc, input: Doc, api: string -> Fetch<string>, w0: Writer)
    returns (merged: Doc, check: bool, missing: seq<string>, w: Writer)
    ensures merged == Merged(target, input, api)
    ensures missing == Missing(input)
    ensures check <==> missing != []
    ensures w == MergeWrites(input, api, w0)
  {
    var g, f := input.features, target.features;
    check, missing := false, [];
    var country, isoCode;
    country, check, missing := CopyText(target.country, input.country, input, 0, check, missing);
    isoCode, check, missing := CopyText(target.isoCode, input.isoCode, input, 1, check, missing);
    var area;
    area, check, missing := CopySwitch(f.area, g.area, input, 2, check, missing);
    var capital;
    capital, check, missing := CopySwitch(f.capital, g.capital, input, 3, check, missing);
    var coordinates;
    coordinates, check, missing := CopySwitch(f.coordinates, g.coordinates, input, 4, check, missing);
    var precipitation;
    precipitation, check, missing := CopySwitch(f.precipitation, g.precipitation, input, 5, check, missing);
    var temperature;
    temperature, check, missing := CopySwitch(f.temperature, g.temperature, input, 6, check, missing);
    var population;
    population, check, missing := CopySwitch(f.population, g.population, input, 7, check, missing);
    var targetCurrencies;
    targetCurrencies, check, missing, w := CopyCurrencies(f.targetCurrencies, g.targetCurrencies, api, w0, input, check, missing);
    MissingUpToAll(input);
    merged := Doc(target.id, country, isoCode,
                  Features(temperature, precipitation, capital, coordinates, population, area, targetCurrencies));
    MergedFields(target, input, api, merged);
  }

  /**
   * `updatedData(newObject, myObject, w)`: copies the filled fields of
   * `myObject` into `newObject` and reports the empty ones. The two may be the
   * same object, as when `postRegistration` checks its own input.
   */
  method UpdatedData(newObject: Record, myObject: Record, api: string -> Fetch<string>, w0: Writer)
    returns (r: Record, checkIfMissingElements: bool, missingElements: seq<string>, w: Writer)
    modifies newObject
    ensures r == newObject
    ensures newObject.Snapshot() == Merged(old(newObject.Snapshot()), old(myObject.Snapshot()), api)
    ensures missingElements == Missing(old(myObject.Snapshot()))
    ensures checkIfMissingElements <==> missingElements != []
    ensures w == MergeWrites(old(myObject.Snapshot()), api, w0)
  {
    // Both records are read first and `newObject` is written once at the end.
    // When the two are the same object, every copy but the last one writes a
    // field onto itself, so this reads and leaves the values the source does.
    var merged;
    merged, checkIfMissingElements, missingElements, w := MergeFields(newObject.Snapshot(), myObject.Snapshot(), api, w0);
    newObject.country, newObject.isoCode, newObject.features := merged.country, merged.isoCode, merged.features;
    r := newObject;
  }

  /** A document agreeing with the merge field by field is the merge. */
  lemma MergedFields(target: Doc, input: Doc, api: string -> Fetch<string>, d: Doc)
    requires d.id == target.id
    requires d.country == (if input.country == "" then target.country else input.country)
    requires d.isoCode == (if input.isoCode == "" then target.isoCode else input.isoCode)
    requires d.features.area == Keep(input.features.area, target.features.area)
    requires d.features.capital == Keep(input.features.capital, target.features.capital)
    requires d.features.coordinates == Keep(input.features.coordinates, target.features.coordinates)
    requires d.features.precipitation == Keep(input.features.precipitation, target.features.precipitation)
    requires d.features.temperature == Keep(input.features.temperature, target.features.temperature)
    requires d.features.population == Keep(input.features.population, target.features.population)
    requires d.features.targetCurrencies ==
      if input.features.targetCurrencies == [] then target.features.targetCurrencies
      else OrEmpty(ValidCurrencies(input.features.targetCurrencies, api))
    ensures d == Merged(target, input, api)
  {
  }

  /** The report on the first `k` fields, built front to back as `updatedData` does. */
  function MissingUpTo(d: Doc, k: nat): seq<string>
    requires k <= 9
  {
    if k == 0 then [] else MissingUpTo(d, k - 1) + Part(d, k - 1)
  }

  lemma {:induction false} MissingUpToFrom(d: Doc, k: nat)
    requires k <= 9
    ensures MissingUpTo(d, k) + MissingFrom(d, k) == Missing(d)
  {
    if k > 0 {
      MissingUpToFrom(d, k - 1);
      ConcatAssoc(MissingUpTo(d, k - 1), Part(d, k - 1), MissingFrom(d, k));
    }
  }

  /** Built front to back, the report over all nine fields is `Missing`. */
  lemma MissingUpToAll(d: Doc)
    ensures MissingUpTo(d, 9) == Missing(d)
  {
    MissingUpToFrom(d, 9);
  }

  lemma ConcatAssoc<T>(a: seq<T>, b: seq<T>, c: seq<T>)
    ensures a + (b + c) == a + b + c
  {
  }

  // ---------------------------------------------------------------------------
  // checkCountry

  /** The fields of a country record that the handlers read: `Name.Common` and `Isocode`. */
  datatype CountryInfo = CountryInfo(common: string, isocode: string)

  /**
   * How `checkCountry` ends: with a name and an ISO code, with the error
   * "no valid countries", or in a panic on the first element of an empty array.
   */
  datatype CountryCheck = Resolved(name: string, iso: string) | NoValidCountries | IndexPanic

  function NameUrl(countryName: string): string {
    CountriesApiName + QueryEscape(countryName)
  }

  function IsoUrl(isoCode: string): string {
    CountriesApiIsocode + QueryEscape(isoCode)
  }

  /** What a country lookup writes: `fetchURLdata`'s 500 when it fails, nothing otherwise. */
  function LookupWrites(w: Writer, url: string, f: Fetch<seq<CountryInfo>>): Writer {
    if f.Failed? then FetchFailed(w, url, f.error) else w
  }

  /** The first record of a lookup that succeeded; Go indexes it without a length check. */
  function FirstCountry(found: seq<CountryInfo>): CountryCheck {
    if |found| == 0 then IndexPanic else Resolved(found[0].common, found[0].isocode)
  }

  /**
   * `checkCountry(countryName, isoCode, w)`: both lookups are made, by name
   * and by code, and each failure writes its 500; then the name lookup wins
   * whenever it succeeded.
   */
  function CheckCountry(countryName: string, isoCode: string,
                        countries: string -> Fetch<seq<CountryInfo>>, w: Writer): (CountryCheck, Writer)
  {
    var byName := countries(NameUrl(countryName));
    var byIso := countries(IsoUrl(isoCode));
    var w' := LookupWrites(LookupWrites(w, NameUrl(countryName), byName), IsoUrl(isoCode), byIso);
    if byName.Fetched? then (FirstCountry(byName.value), w')
    else if byIso.Fetched? then (FirstCountry(byIso.value), w')
    else (NoValidCountries, w')
  }

  /**
   * The fallback rule: the name lookup's first record when that lookup
   * succeeded, else the ISO lookup's, else "no valid countries"; a lookup that
   * returned no record at all panics.
   */
  lemma CheckCountrySpec(countryName: string, isoCode: string,
                         countries: string -> Fetch<seq<CountryInfo>>, w: Writer)
    ensures var byName, byIso := countries(NameUrl(countryName)), countries(IsoUrl(isoCode));
      && (byName.Fetched? ==> CheckCountry(countryName, isoCode, countries, w).0 == FirstCountry(byName.value))
      && (byName.Failed? && byIso.Fetched? ==> CheckCountry(countryName, isoCode, countries, w).0 == FirstCountry(byIso.value))
      && (CheckCountry(countryName, isoCode, countries, w).0 == NoValidCountries <==> byName.Failed? && byIso.Failed?)
    ensures var byName := countries(NameUrl(countryName));
      byName.Failed? ==>
        CheckCountry(countryName, isoCode, countries, w).1.status == (if w.headerSent then w.status else StatusInternalServerError)
  {
  }

  /** When the name lookup succeeds, what the ISO lookup returns does not change the result. */
  lemma CheckCountryNameFirst(countryName: string, isoCode: string,
                              c1: string -> Fetch<seq<CountryInfo>>, c2: string -> Fetch<seq<CountryInfo>>, w: Writer)
    requires c1(NameUrl(countryName)) == c2(NameUrl(countryName))
    requires c1(NameUrl(countryName)).Fetched?
    ensures CheckCountry(countryName, isoCode, c1, w).0 == CheckCountry(countryName, isoCode, c2, w).0
  {
  }

  /** A resolved country is always one of the two lookups' first records. */
  lemma CheckCountryResolvedFrom(countryName: string, isoCode: string,
                                 countries: string -> Fetch<seq<CountryInfo>>, w: Writer)
    requires CheckCountry(countryName, isoCode, countries, w).0.Resolved?
    ensures var r, byName, byIso := CheckCountry(countryName, isoCode, countries, w).0,
                                    countries(NameUrl(countryName)), countries(IsoUrl(isoCode));
      || (byName.Fetched? && |byName.value| > 0 && r == Resolved(byName.value[0].common, byName.value[0].isocode))
      || (byName.Failed? && byIso.Fetched? && |byIso.value| > 0 && r == Resolved(byIso.value[0].common, byIso.value[0].isocode))
  {
  }

  // ---------------------------------------------------------------------------
  // postRegistration

  const BothEmptyMessage: string :=
    "Invalid input: Fields 'Country' and 'Isocode' are empty." +
    "\n Suggestion: Fill both or one of the fields to register a dashboard"

  /**
   * How a handler that may change the collection ends: what it wrote and the
   * collection after it, a runtime panic, or an identifier loop still drawing
   * when the given rounds ran out.
   */
  datatype Outcome = Done(w: Writer, store: seq<Doc>) | Crashed | StillDrawing

  /** The identifier of a document, the key of the collection's queries. */
  function DocId(d: Doc): string {
    d.id
  }

  function IdsOf(store: seq<Doc>): set<string> {
    KeySet(store, DocId)
  }

  /** No two documents of the collection carry the same identifier. */
  predicate UniqueIds(store: seq<Doc>) {
    UniqueKeys(store, DocId)
  }

  /** The JSON body of a successful registration, as the encoder writes it. */
  function CreatedReply(id: string, now: string): string {
    "{\"id\":\"" + id + "\",\"lastChanged\":\"" + now + "\"}\n"
  }

  /** The document `postRegistration` adds for identifier `id`. */
  function Registered(id: string, name: string, iso: string, features: Features, valid: Option<seq<string>>): Doc {
    Doc(id, name, iso, features.(targetCurrencies := OrEmpty(valid)))
  }

  /**
   * `postRegistration` on a decoded input: the both-empty guard, the country
   * check, the currency check (made twice: once directly and once inside
   * `updatedData`), the missing-field report, the identifier loop, and the add.
   */
  function RegistrationSpec(input: Doc, countries: string -> Fetch<seq<CountryInfo>>, api: string -> Fetch<string>,
                            attempts: seq<IdRetry.Attempt>, store: seq<Doc>, addFails: bool, now: string): Outcome
    requires IdRetry.Drawable(attempts)
  {
    if IsEmptyField(Str(input.country)) && IsEmptyField(Str(input.isoCode)) then
      Done(Error(Fresh, BothEmptyMessage, StatusBadRequest), store)
    else
      var cc := CheckCountry(input.country, input.isoCode, countries, Fresh);
      match cc.0
      case IndexPanic => Crashed
      case NoValidCountries => Done(Error(cc.1, "no valid countries", StatusInternalServerError), store)
      case Resolved(name, iso) =>
        var cur := CheckedCurrencies(input.features.targetCurrencies, api, cc.1);
        var w := MergeWrites(input, api, cur.w);
        if Missing(input) != [] then
          Done(Error(w, "Missing variables: " + Join(Missing(input), ", "), StatusBadRequest), store)
        else
          match IdRetry.FirstFree(attempts, IdsOf(store))
          case Unfinished => StillDrawing
          case Picked(id, _, _) =>
            if addFails then Done(Error(w, "Failed to add document", StatusInternalServerError), store)
            else Done(Write(w, CreatedReply(id, now)), store + [Registered(id, name, iso, input.features, cur.valid)])
  }

  /** `postRegistration`, after its JSON body has been decoded into `input`. */
  method PostRegistration(input: Doc, countries: string -> Fetch<seq<CountryInfo>>, api: string -> Fetch<string>,
                          attempts: seq<IdRetry.Attempt>, store: seq<Doc>, addFails: bool, now: string)
    returns (out: Outcome)
    requires IdRetry.Drawable(attempts)
    ensures out == RegistrationSpec(input, countries, api, attempts, store, addFails, now)
  {
    if IsEmptyField(Str(input.country)) && IsEmptyField(Str(input.isoCode)) {
      return Done(Error(Fresh, BothEmptyMessage, StatusBadRequest), store);
    }
    var cc := CheckCountry(input.country, input.isoCode, countries, Fresh);
    if cc.0.IndexPanic? {
      return Crashed;
    }
    if cc.0.NoValidCountries? {
      return Done(Error(cc.1, "no valid countries", StatusInternalServerError), store);
    }
    var validCountry, validIso := cc.0.name, cc.0.iso;
    var validCurrencies, _, w := CheckCurrencies(input.features.targetCurrencies, api, cc.1);
    var dashboard := new Record(input);
    var _, checkIfMissingElements, missingElements, w' := UpdatedData(dashboard, dashboard, api, w);
    if checkIfMissingElements {
      return Done(Error(w', "Missing variables: " + Join(missingElements, ", "), StatusBadRequest), store);
    }
    var pick := IdRetry.PickUniqueId(attempts, IdsOf(store));
    if pick.Unfinished? {
      return StillDrawing;
    }
    if addFails {
      return Done(Error(w', "Failed to add document", StatusInternalServerError), store);
    }
    // `updatedData` merged the input into itself, so its switches are the input's
    var added := Registered(pick.id, validCountry, validIso, dashboard.features, validCurrencies);
    out := Done(Write(w', CreatedReply(pick.id, now)), store + [added]);
  }

  /** With both Country and IsoCode empty, the reply is the same 400 whatever every lookup would return. */
  lemma RegistrationBothEmpty(input: Doc, countries: string -> Fetch<seq<CountryInfo>>, api: string -> Fetch<string>,
                              attempts: seq<IdRetry.Attempt>, store: seq<Doc>, addFails: bool, now: string)
    requires IdRetry.Drawable(attempts)
    requires input.country == "" && input.isoCode == ""
    ensures RegistrationSpec(input, countries, api, attempts, store, addFails, now) ==
      Done(Writer(true, StatusBadRequest, BothEmptyMessage + "\n"), store)
  {
  }

  /**
   * A registration that adds a document adds exactly one: a complete input,
   * under the identifier the collision loop settled on, with the resolved
   * country and the accepted currencies.
   */
  lemma RegistrationAdds(input: Doc, countries: string -> Fetch<seq<CountryInfo>>, api: string -> Fetch<string>,
                         attempts: seq<IdRetry.Attempt>, store: seq<Doc>, addFails: bool, now: string)
    requires IdRetry.Drawable(attempts)
    requires var out := RegistrationSpec(input, countries, api, attempts, store, addFails, now);
      out.Done? && out.store != store
    ensures var out := RegistrationSpec(input, countries, api, attempts, store, addFails, now);
      && Missing(input) == [] && !addFails
      && IdRetry.FirstFree(attempts, IdsOf(store)).Picked?
      && |out.store| == |store| + 1 && out.store[..|store|] == store
      && var added, pick := out.store[|store|], IdRetry.FirstFree(attempts, IdsOf(store));
      && added.id == pick.id && |added.id| == IdRetry.IdLength
      && (!pick.storeError ==> added.id !in IdsOf(store))
      && CheckCountry(input.country, input.isoCode, countries, Fresh).0 == Resolved(added.country, added.isoCode)
      && added.features == input.features.(targetCurrencies := OrEmpty(ValidCurrencies(input.features.targetCurrencies, api)))
  {
    IdRetry.FirstFreeFromSpec(attempts, IdsOf(store), 0);
    ValidCurrenciesAnyWriter(input.features.targetCurrencies, api,
      CheckCountry(input.country, input.isoCode, countries, Fresh).1);
  }

  /** An added document keeps the identifiers unique unless the loop ended on a store error. */
  lemma RegistrationKeepsIdsUnique(input: Doc, countries: string -> Fetch<seq<CountryInfo>>, api: string -> Fetch<string>,
                                   attempts: seq<IdRetry.Attempt>, store: seq<Doc>, addFails: bool, now: string)
    requires IdRetry.Drawable(attempts)
    requires UniqueIds(store)
    requires var pick := IdRetry.FirstFree(attempts, IdsOf(store)); pick.Picked? ==> !pick.storeError
    requires RegistrationSpec(input, countries, api, attempts, store, addFails, now).Done?
    ensures UniqueIds(RegistrationSpec(input, countries, api, attempts, store, addFails, now).store)
  {
    var out := RegistrationSpec(input, countries, api, attempts, store, addFails, now);
    if out.store != store {
      RegistrationAdds(input, countries, api, attempts, store, addFails, now);
      var added := out.store[|store|];
      assert out.store == store + [added];
      forall i | 0 <= i < |store| ensures store[i].id != added.id {
        assert store[i] in store;
      }
    }
  }

  /** A registration either adds one document or leaves the collection as it was. */
  lemma RegistrationAddsAtMostOne(input: Doc, countries: string -> Fetch<seq<CountryInfo>>, api: string -> Fetch<string>,
                                  attempts: seq<IdRetry.Attempt>, store: seq<Doc>, addFails: bool, now: string)
    requires IdRetry.Drawable(attempts)
    requires RegistrationSpec(input, countries, api, attempts, store, addFails, now).Done?
    ensures var after := RegistrationSpec(input, countries, api, attempts, store, addFails, now).store;
      after == store || (|after| == |store| + 1 && after[..|store|] == store)
  {
  }

  // ---------------------------------------------------------------------------
  // deleteDashboard

  /** The collection without the document at position `k`. */
  function RemoveAt(store: seq<Doc>, k: nat): seq<Doc>
    requires k < |store|
  {
    store[..k] + store[k + 1..]
  }

  /**
   * `deleteDashboard` for the request path `path`: the segment at position 4
   * of the "/"-split path is the identifier. `queryFails` is a failing store
   * query; `deleteFails` a failing delete.
   */
  function DeleteDashboard(path: string, store: seq<Doc>, queryFails: bool, deleteFails: bool): Outcome {
    var elem := Split(path, '/');
    if |elem| < 5 then Done(Error(Fresh, "Dashboard ID not provided", StatusBadRequest), store)
    else
      var dashboardId := elem[4];
      if |dashboardId| == 0 then Done(Error(Fresh, "Dashboard ID not provided", StatusBadRequest), store)
      else if queryFails then Done(Error(Fresh, "Error retrieving document", StatusInternalServerError), store)
      else if dashboardId !in IdsOf(store) then
        Done(Error(Fresh, "Document with ID " + dashboardId + " not found", StatusNotFound), store)
      else if deleteFails then Done(Error(Fresh, "Error deleting document", StatusInternalServerError), store)
      else Done(WriteHeader(Fresh, StatusNoContent), RemoveAt(store, FirstKeyed(store, DocId, dashboardId)))
  }

  /** The reply is the 400 "Dashboard ID not provided" exactly when the path has no fifth segment or it is empty. */
  lemma DeleteNeedsId(path: string, store: seq<Doc>, queryFails: bool, deleteFails: bool)
    ensures var elem, out := Split(path, '/'), DeleteDashboard(path, store, queryFails, deleteFails);
      out.w.status == StatusBadRequest <==> |elem| < 5 || elem[4] == ""
    ensures var elem, out := Split(path, '/'), DeleteDashboard(path, store, queryFails, deleteFails);
      (|elem| < 5 || elem[4] == "") ==> out == Done(Writer(true, StatusBadRequest, "Dashboard ID not provided\n"), store)
  {
  }

  /** The path without an identifier, "/dashboard/", has three segments and is refused. */
  lemma DeleteWithoutId(store: seq<Doc>, queryFails: bool, deleteFails: bool)
    ensures DeleteDashboard("/dashboard/", store, queryFails, deleteFails) ==
      Done(Writer(true, StatusBadRequest, "Dashboard ID not provided\n"), store)
  {
    SplitDashboardOnly();
  }

  lemma SplitDashboardOnly()
    ensures Split("/dashboard/", '/') == ["", "dashboard", ""]
  {
    SegmentNamesHaveNoSlash();
    assert "/dashboard/" == [] + ['/'] + ("dashboard" + ['/'] + []);
    SplitAround([], '/', "dashboard" + ['/'] + []);
    SplitAround("dashboard", '/', []);
    SplitNoSep("dashboard", '/');
  }

  /** The segment names of the service's paths contain no separator. */
  lemma SegmentNamesHaveNoSlash()
    ensures '/' !in "dashboard" && '/' !in "v1" && '/' !in "registrations"
    ensures '/' !in "notifications" && '/' !in "webhook"
  {
  }

  /** Under the registrations path, segment 4 is the identifier that follows it. */
  lemma {:induction false} RegistrationPathSegment(id: string)
    requires '/' !in id
    ensures |Split(RegistrationPath + id, '/')| == 5
    ensures Split(RegistrationPath + id, '/')[4] == id
  {
    RegistrationPathShape(id);
    SegmentNamesHaveNoSlash();
    SplitSegments("dashboard", "v1", "registrations", id);
  }

  lemma RegistrationPathShape(id: string)
    ensures RegistrationPath + id == [] + ['/'] + ("dashboard" + ['/'] + ("v1" + ['/'] + ("registrations" + ['/'] + id)))
  {
    assert RegistrationPath == "/" + "dashboard" + "/" + "v1" + "/" + "registrations" + "/";
  }

  /** A rooted path of four separator-free segments splits into them, after an empty first piece. */
  lemma SplitSegments(a: string, b: string, c: string, d: string)
    requires '/' !in a && '/' !in b && '/' !in c && '/' !in d
    ensures Split([] + ['/'] + (a + ['/'] + (b + ['/'] + (c + ['/'] + d))), '/') == ["", a, b, c, d]
  {
    var t3 := c + ['/'] + d;
    var t2 := b + ['/'] + t3;
    var t1 := a + ['/'] + t2;
    SplitNoSep(d, '/');
    SplitNoSep(c, '/');
    SplitAround(c, '/', d);
    SplitNoSep(b, '/');
    SplitAround(b, '/', t3);
    SplitNoSep(a, '/');
    SplitAround(a, '/', t2);
    SplitAround([], '/', t1);
  }

  /**
   * A 204 removes exactly one document, the first one carrying the path's
   * identifier, and keeps every other in order; every other reply leaves
   * the collection alone.
   */
  lemma DeleteRemovesFirstMatch(path: string, store: seq<Doc>, queryFails: bool, deleteFails: bool)
    ensures var elem, out := Split(path, '/'), DeleteDashboard(path, store, queryFails, deleteFails);
      out.w.status == StatusNoContent ==>
        && |elem| >= 5 && elem[4] != "" && !queryFails && !deleteFails
        && exists k :: 0 <= k < |store| && store[k].id == elem[4]
             && (forall j :: 0 <= j < k ==> store[j].id != elem[4])
             && out.store == store[..k] + store[k + 1..]
    ensures var out := DeleteDashboard(path, store, queryFails, deleteFails);
      out.w.status != StatusNoContent ==> out.store == store
    ensures var out := DeleteDashboard(path, store, queryFails, deleteFails);
      out.w.status == StatusNoContent ==> multiset(out.store) + multiset{store[FirstKeyed(store, DocId, Split(path, '/')[4])]} == multiset(store)
  {
    var elem, out := Split(path, '/'), DeleteDashboard(path, store, queryFails, deleteFails);
    if out.w.status == StatusNoContent {
      var k := FirstKeyed(store, DocId, elem[4]);
      assert out.store == RemoveAt(store, k);
      assert forall j :: 0 <= j < k ==> DocId(store[j]) != elem[4];
      assert store[k].id == elem[4] && forall j :: 0 <= j < k ==> store[j].id != elem[4];
      RemoveAtMultiset(store, k);
    }
  }

  lemma RemoveAtMultiset(store: seq<Doc>, k: nat)
    requires k < |store|
    ensures multiset(RemoveAt(store, k)) + multiset{store[k]} == multiset(store)
  {
    assert store == store[..k] + [store[k]] + store[k + 1..];
  }

  // ---------------------------------------------------------------------------
  // RegistrationHandler

  /** Where `RegistrationHandler` sends a request, by method. */
  datatype RegistrationRoute = ToPost | ToGet | ToUpdate(isPut: bool) | ToDelete | Refused(w: Writer)

  function RouteRegistration(verb: string): RegistrationRoute {
    if verb == "POST" then ToPost
    else if verb == "GET" then ToGet
    else if verb == "PUT" then ToUpdate(true)
    else if verb == "PATCH" then ToUpdate(false)
    else if verb == "DELETE" then ToDelete
    else Refused(Error(Fresh, "Unsupported request method" + verb, StatusMethodNotAllowed))
  }

  /** The routing table, and the 405 naming the method for anything else. */
  lemma RouteRegistrationTable(verb: string)
    ensures RouteRegistration(verb) == ToPost <==> verb == "POST"
    ensures RouteRegistration(verb) == ToGet <==> verb == "GET"
    ensures RouteRegistration(verb) == ToUpdate(true) <==> verb == "PUT"
    ensures RouteRegistration(verb) == ToUpdate(false) <==> verb == "PATCH"
    ensures RouteRegistration(verb) == ToDelete <==> verb == "DELETE"
    ensures RouteRegistration(verb).Refused? <==> verb !in {"POST", "GET", "PUT", "PATCH", "DELETE"}
    ensures RouteRegistration(verb).Refused? ==>
      RouteRegistration(verb).w == Writer(true, StatusMethodNotAllowed, "Unsupported request method" + verb + "\n")
  {
  }

  /** A HEAD request is refused with the method name glued to the message. */
  lemma RouteRegistrationHead()
    ensures RouteRegistration("HEAD") == Refused(Writer(true, StatusMethodNotAllowed, "Unsupported request methodHEAD\n"))
  {
  }
}
