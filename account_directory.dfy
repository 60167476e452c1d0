/** `get_account_names`: linked-account ids to their human-readable descriptions. */
module AccountDirectory {
  import opened Common

  /** One entry of `DimensionValues`: its `Value` and its `Attributes["description"]`. */
  datatype DimensionValue = DimensionValue(value: string, description: string)

  /** The description the last entry for `id` carries, if any entry has that id. */
  function LastDescription(values: seq<DimensionValue>, id: string): Option<string>
  {
    if values == [] then None
    else if values[|values| - 1].value == id then Some(values[|values| - 1].description)
    else LastDescription(values[..|values| - 1], id)
  }

  /** LastDescription picks the entry for `id` that no later entry for `id` overrides. */
  lemma {:induction false} LastDescriptionIsLastEntry(values: seq<DimensionValue>, id: string)
    ensures LastDescription(values, id).None? <==> forall i :: 0 <= i < |values| ==> values[i].value != id
    ensures LastDescription(values, id).Some? ==>
      exists i :: 0 <= i < |values| && values[i] == DimensionValue(id, LastDescription(values, id).value)
        && forall j :: i < j < |values| ==> values[j].value != id
  {
    if values != [] {
      var init := values[..|values| - 1];
      LastDescriptionIsLastEntry(init, id);
      if values[|values| - 1].value != id {
        if LastDescription(init, id).Some? {
          var i :| 0 <= i < |init| && init[i] == DimensionValue(id, LastDescription(init, id).value)
            && forall j :: i < j < |init| ==> init[j].value != id;
          assert values[i] == init[i];
        }
      }
    }
  }

  /** The account ids the directory lists. */
  function Ids(values: seq<DimensionValue>): set<string>
  {
    set i | 0 <= i < |values| :: values[i].value
  }

  /**
   * Folds the entries into a map, one assignment per entry: every listed id is a key, and a
   * repeated id keeps the description of its last entry.
   */
  method GetAccountNames(values: seq<DimensionValue>) returns (accounts: map<string, string>)
    ensures accounts.Keys == Ids(values)
    ensures forall id :: id in accounts ==> LastDescription(values, id) == Some(accounts[id])
  {
    accounts := map[];
    var i := 0;
    while i < |values|
      invariant 0 <= i <= |values|
      invariant accounts.Keys == Ids(values[..i])
      invariant forall id :: id in accounts ==> LastDescription(values[..i], id) == Some(accounts[id])
    {
      assert values[..i + 1][..i] == values[..i];
      assert Ids(values[..i + 1]) == Ids(values[..i]) + {values[i].value} by {
        forall id | id in Ids(values[..i + 1]) ensures id in Ids(values[..i]) + {values[i].value} {
          var k :| 0 <= k <= i && values[..i + 1][k].value == id;
          if k < i {
            assert values[..i][k].value == id;
          }
        }
      }
      accounts := accounts[values[i].value := values[i].description];
      i := i + 1;
    }
    assert values[..i] == values;
  }
}
