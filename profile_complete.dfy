/** The first-run page on which the administrator picks the currencies the
    company trades, marks the primary ones and enters their opening cash and
    check balances. Each handler builds the next list from the current one. */
module ProfileComplete {
  import opened Common
  import opened Balances

  /** An entry of the currency picker. */
  datatype Choice = Choice(code: string, name: string, symbol: string)

  /** An entry of the selected list. */
  datatype Selected = Selected(code: string, name: string, symbol: string, isPrimary: bool, balance: real, checkBalance: real)

  /** A balance field as typed: blank, or the number it reads as. */
  datatype Entry = Blank | Typed(x: real)

  /** `value === "" ? 0 : Number(value)`. */
  function EntryAmount(e: Entry): real {
    if e.Blank? then 0.0 else e.x
  }

  predicate HasCode(list: seq<Selected>, code: string) {
    exists i :: 0 <= i < |list| && list[i].code == code
  }

  /** No code appears twice. */
  predicate UniqueCodes(list: seq<Selected>) {
    forall i, j :: 0 <= i < j < |list| ==> list[i].code != list[j].code
  }

  /** The entry a picked currency becomes: not primary, zero balances. */
  function Fresh(c: Choice): Selected {
    Selected(c.code, c.name, c.symbol, false, 0.0, 0.0)
  }

  /** `handleAddCurrency`: nothing picked or a code already listed leaves the list
      alone; otherwise the new entry is appended. */
  function AddCurrency(list: seq<Selected>, newValue: Option<Choice>): (r: seq<Selected>)
    // The old list is kept, in order, in front.
    ensures |list| <= |r| <= |list| + 1 && r[..|list|] == list
    ensures |r| == |list| + 1 <==> newValue.Some? && !HasCode(list, newValue.value.code)
    ensures |r| == |list| + 1 ==> r[|list|] == Fresh(newValue.value)
    ensures newValue.Some? ==> HasCode(r, newValue.value.code)
  {
    if newValue.None? then list
    else if HasCode(list, newValue.value.code) then list
    else
      var r := list + [Fresh(newValue.value)];
      assert r[|list|].code == newValue.value.code;
      r
  }

  /** Adding never makes a code appear twice. */
  lemma AddKeepsCodesUnique(list: seq<Selected>, newValue: Option<Choice>)
    requires UniqueCodes(list)
    ensures UniqueCodes(AddCurrency(list, newValue))
  {
    var r := AddCurrency(list, newValue);
    if |r| == |list| + 1 {
      forall i, j | 0 <= i < j < |r|
        ensures r[i].code != r[j].code
      {
        if j == |list| {
          assert r[i] == list[i];
        } else {
          assert r[i] == list[i] && r[j] == list[j];
        }
      }
    }
  }

  /** `handleRemoveCurrency`: `filter((c) => c.code !== code)`. */
  function RemoveCurrency(list: seq<Selected>, code: string): (r: seq<Selected>)
    ensures |r| <= |list|
    ensures forall x :: x in r <==> x in list && x.code != code
  {
    if list == [] then []
    else (if list[0].code == code then [] else [list[0]]) + RemoveCurrency(list[1..], code)
  }

  /** Removing a code that is not listed changes nothing. */
  lemma {:induction false} RemoveAbsent(list: seq<Selected>, code: string)
    requires !HasCode(list, code)
    ensures RemoveCurrency(list, code) == list
  {
    if list != [] {
      forall k | 0 <= k < |list[1..]|
        ensures list[1..][k].code != code
      {
        assert list[1..][k] == list[k + 1];
      }
      RemoveAbsent(list[1..], code);
      assert list == [list[0]] + list[1..];
    }
  }

  /** With unique codes, removing the code of entry `i` takes out exactly that
      entry and keeps the others in their order. */
  lemma {:induction false} RemoveListed(list: seq<Selected>, code: string, i: nat)
    requires UniqueCodes(list) && i < |list| && list[i].code == code
    ensures RemoveCurrency(list, code) == list[..i] + list[i + 1..]
  {
    if i == 0 {
      UniqueHeadAbsent(list);
      RemoveAbsent(list[1..], code);
    } else {
      UniqueTail(list);
      RemoveListed(list[1..], code, i - 1);
      ConsSplit(list, i);
    }
  }

  /** The head's code does not occur again in a list with unique codes. */
  lemma UniqueHeadAbsent(list: seq<Selected>)
    requires UniqueCodes(list) && |list| > 0
    ensures !HasCode(list[1..], list[0].code)
  {
    forall k | 0 <= k < |list[1..]|
      ensures list[1..][k].code != list[0].code
    {
      assert list[1..][k] == list[k + 1];
    }
  }

  lemma UniqueTail(list: seq<Selected>)
    requires UniqueCodes(list) && |list| > 0
    ensures UniqueCodes(list[1..])
  {
    forall a, b | 0 <= a < b < |list[1..]|
      ensures list[1..][a].code != list[1..][b].code
    {
      assert list[1..][a] == list[a + 1] && list[1..][b] == list[b + 1];
    }
  }

  /** Dropping entry `i` of a list is keeping its head and dropping entry `i - 1`
      of its tail. */
  lemma ConsSplit(list: seq<Selected>, i: nat)
    requires 0 < i < |list|
    ensures [list[0]] + (list[1..][..i - 1] + list[1..][i - 1 + 1..]) == list[..i] + list[i + 1..]
  {
    assert list[1..][..i - 1] == list[1..i];
    assert list[1..][i - 1 + 1..] == list[i + 1..];
    assert [list[0]] + list[1..i] == list[..i];
  }

  /** `selectedCurrencies.map((c) => c.code === code ? f(c) : c)`. */
  function MapMatching(list: seq<Selected>, code: string, f: Selected -> Selected): (r: seq<Selected>)
    ensures |r| == |list|
    ensures forall i :: 0 <= i < |list| && list[i].code == code ==> r[i] == f(list[i])
    ensures forall i :: 0 <= i < |list| && list[i].code != code ==> r[i] == list[i]
  {
    seq(|list|, i requires 0 <= i < |list| => if list[i].code == code then f(list[i]) else list[i])
  }

  function FlipPrimary(c: Selected): Selected {
    c.(isPrimary := !c.isPrimary)
  }

  /** `handleTogglePrimary`. */
  function TogglePrimary(list: seq<Selected>, code: string): (r: seq<Selected>)
    ensures |r| == |list|
    ensures forall i :: 0 <= i < |list| ==>
      r[i].code == list[i].code && (r[i].isPrimary <==> (list[i].isPrimary != (list[i].code == code)))
  {
    MapMatching(list, code, FlipPrimary)
  }

  /** Toggling the same code twice restores the list. */
  lemma TogglePrimaryTwice(list: seq<Selected>, code: string)
    ensures TogglePrimary(TogglePrimary(list, code), code) == list
  {
    var once := TogglePrimary(list, code);
    var twice := TogglePrimary(once, code);
    assert forall i :: 0 <= i < |list| ==> twice[i] == list[i];
  }

  /** `handleBalanceChange`: the cash balance of the matching entry only. */
  function SetBalance(list: seq<Selected>, code: string, value: Entry): (r: seq<Selected>)
    ensures |r| == |list|
    ensures forall i :: 0 <= i < |list| && list[i].code == code ==> r[i] == list[i].(balance := EntryAmount(value))
    ensures forall i :: 0 <= i < |list| && list[i].code != code ==> r[i] == list[i]
  {
    MapMatching(list, code, (c: Selected) => c.(balance := EntryAmount(value)))
  }

  /** `handleCheckBalanceChange`: the check balance of the matching entry only. */
  function SetCheckBalance(list: seq<Selected>, code: string, value: Entry): (r: seq<Selected>)
    ensures |r| == |list|
    ensures forall i :: 0 <= i < |list| && list[i].code == code ==> r[i] == list[i].(checkBalance := EntryAmount(value))
    ensures forall i :: 0 <= i < |list| && list[i].code != code ==> r[i] == list[i]
  {
    MapMatching(list, code, (c: Selected) => c.(checkBalance := EntryAmount(value)))
  }

  /** Editing entries in place never changes which codes are listed, so the
      codes stay unique under toggling and both balance changes. */
  lemma MapMatchingKeepsCodesUnique(list: seq<Selected>, code: string, f: Selected -> Selected)
    requires UniqueCodes(list)
    requires forall c :: f(c).code == c.code
    ensures UniqueCodes(MapMatching(list, code, f))
  {
    var r := MapMatching(list, code, f);
    assert forall i :: 0 <= i < |list| ==> r[i].code == list[i].code;
  }

  lemma EditsKeepCodesUnique(list: seq<Selected>, code: string, value: Entry)
    requires UniqueCodes(list)
    ensures UniqueCodes(TogglePrimary(list, code))
    ensures UniqueCodes(SetBalance(list, code, value))
    ensures UniqueCodes(SetCheckBalance(list, code, value))
  {
    MapMatchingKeepsCodesUnique(list, code, FlipPrimary);
    MapMatchingKeepsCodesUnique(list, code, (c: Selected) => c.(balance := EntryAmount(value)));
    MapMatchingKeepsCodesUnique(list, code, (c: Selected) => c.(checkBalance := EntryAmount(value)));
  }

  /** Removing keeps the codes unique. */
  lemma RemoveKeepsCodesUnique(list: seq<Selected>, code: string)
    requires UniqueCodes(list)
    ensures UniqueCodes(RemoveCurrency(list, code))
  {
    var r := RemoveCurrency(list, code);
    if HasCode(list, code) {
      var i :| 0 <= i < |list| && list[i].code == code;
      RemoveListed(list, code, i);
      forall a, b | 0 <= a < b < |r|
        ensures r[a].code != r[b].code
      {
        var a' := if a < i then a else a + 1;
        var b' := if b < i then b else b + 1;
        assert r[a] == list[a'] && r[b] == list[b'];
      }
    } else {
      RemoveAbsent(list, code);
    }
  }

  /** The message shown when the list is empty: "choose at least one currency". */
  const EmptySelection := "يرجى اختيار عملة واحدة على الأقل"

  /** The two calls made for one entry: `createCurrency({ currency: name })`, then
      `updateCompanyBalance` of the new currency with the entry's balances and
      `star: isPrimary`. */
  datatype SetupRequest = SetupRequest(currency: string, patch: BalancePatch)

  function RequestFor(c: Selected): SetupRequest {
    SetupRequest(c.name, BalancePatch(Some(c.balance), Some(c.checkBalance), Some(c.isPrimary)))
  }

  /** `handleSubmit` up to the calls: an empty list is refused before any call;
      otherwise one request pair per entry, in list order. */
  function SubmitRequests(list: seq<Selected>): (r: Result<seq<SetupRequest>>)
    ensures r.Fail? <==> list == []
    ensures r.Fail? ==> r.failure == Failure(Invalid, EmptySelection)
    ensures r.Ok? ==> |r.value| == |list|
    ensures r.Ok? ==> forall i :: 0 <= i < |list| ==> r.value[i].currency == list[i].name && Complete(r.value[i].patch)
  {
    if list == [] then Fail(Failure(Invalid, EmptySelection))
    else Ok(seq(|list|, i requires 0 <= i < |list| => RequestFor(list[i])))
  }

  /** Each balance request gives all three fields, so the company row of the new
      currency ends up holding exactly the entry's balances and primary flag. */
  lemma SetupBalancesLand(list: seq<Selected>, i: nat, rows: map<nat, Store.Balance>, currencyId: nat)
    requires i < |list|
    ensures SubmitRequests(list).Ok?
    ensures Upsert(rows, currencyId, SubmitRequests(list).value[i].patch)[currencyId]
      == Store.Balance(list[i].balance, list[i].checkBalance, list[i].isPrimary)
  {
    CompletePatchOverwrites(rows, currencyId, SubmitRequests(list).value[i].patch);
  }
}
