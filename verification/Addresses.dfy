/** A customer's addresses and their one default (src/modules/customers/customer.repository.js:
    236-350). Rows are kept in creation order and never removed; a delete marks them. */
module Addresses {
  import opened Data

  datatype Address = Address(isDefault: bool, deleted: bool)

  predicate IsLive(rows: seq<Address>, id: nat) {
    id < |rows| && !rows[id].deleted
  }

  function LiveCount(rows: seq<Address>): nat {
    if rows == [] then 0
    else LiveCount(rows[..|rows| - 1]) + if rows[|rows| - 1].deleted then 0 else 1
  }

  function DefaultCount(rows: seq<Address>): nat {
    if rows == [] then 0
    else DefaultCount(rows[..|rows| - 1]) + if !rows[|rows| - 1].deleted && rows[|rows| - 1].isDefault then 1 else 0
  }

  /** The newest live row other than `except`. */
  function Newest(rows: seq<Address>, except: Option<nat>): (id: Option<nat>)
    ensures id.Some? ==> IsLive(rows, id.value) && Some(id.value) != except
    ensures id.Some? ==> forall j :: id.value < j < |rows| && !rows[j].deleted ==> Some(j) == except
    ensures id.None? ==> forall j :: 0 <= j < |rows| && !rows[j].deleted ==> Some(j) == except
  {
    if rows == [] then None
    else if !rows[|rows| - 1].deleted && Some(|rows| - 1) != except then Some(|rows| - 1)
    else Newest(rows[..|rows| - 1], except)
  }

  /** updateMany on every live row. */
  function ClearDefaults(rows: seq<Address>): seq<Address> {
    seq(|rows|, i requires 0 <= i < |rows| => if rows[i].deleted then rows[i] else rows[i].(isDefault := false))
  }

  function SetDefault(rows: seq<Address>, id: nat, isDefault: bool): seq<Address> {
    if IsLive(rows, id) then rows[id := rows[id].(isDefault := isDefault)] else rows
  }

  // ---- The three calls ----

  function CreateRow(rows: seq<Address>, wanted: Option<bool>): seq<Address> {
    var isDefault := LiveCount(rows) == 0 || wanted == Some(true);
    (if isDefault then ClearDefaults(rows) else rows) + [Address(isDefault, false)]
  }

  function UpdateRow(rows: seq<Address>, id: nat, wanted: Option<bool>): Result<seq<Address>> {
    if !IsLive(rows, id) then Err(NotFound)
    else if wanted == Some(true) then Ok(SetDefault(ClearDefaults(rows), id, true))
    else if wanted == Some(false) && rows[id].isDefault && DefaultCount(rows) <= 1 then
      var next := Newest(rows, Some(id));
      if next.Some? then Ok(SetDefault(SetDefault(rows, next.value, true), id, false))
      else Ok(SetDefault(rows, id, true))
    else if wanted == Some(false) then Ok(SetDefault(rows, id, false))
    else Ok(rows)
  }

  function DeleteRow(rows: seq<Address>, id: nat): Result<seq<Address>> {
    if !IsLive(rows, id) then Err(NotFound)
    else
      var left := rows[id := Address(false, true)];
      var next := Newest(left, None);
      Ok(if rows[id].isDefault && next.Some? then SetDefault(left, next.value, true) else left)
  }

  // ---- Exactly one default ----

  /** Exactly one live row is the default, if any row is live; no deleted row is. */
  ghost predicate OneDefault(rows: seq<Address>) {
    && (forall i :: 0 <= i < |rows| && rows[i].deleted ==> !rows[i].isDefault)
    && (forall i, j :: 0 <= i < j < |rows| ==> !(rows[i].isDefault && rows[j].isDefault))
    && ((exists i :: 0 <= i < |rows| && !rows[i].deleted) ==> exists i :: 0 <= i < |rows| && rows[i].isDefault)
  }

  lemma {:induction false} NoLiveRows(rows: seq<Address>)
    ensures LiveCount(rows) == 0 <==> forall i :: 0 <= i < |rows| ==> rows[i].deleted
  {
    if rows != [] {
      NoLiveRows(rows[..|rows| - 1]);
    }
  }

  lemma {:induction false} AtMostOneDefault(rows: seq<Address>)
    requires OneDefaultAtMost(rows)
    ensures DefaultCount(rows) <= 1
    ensures DefaultCount(rows) == 1 <==> exists i :: 0 <= i < |rows| && !rows[i].deleted && rows[i].isDefault
  {
    if rows != [] {
      var init := rows[..|rows| - 1];
      AtMostOneDefault(init);
      if i :| 0 <= i < |init| && !init[i].deleted && init[i].isDefault {
        assert rows[i].isDefault;
      }
    }
  }

  ghost predicate OneDefaultAtMost(rows: seq<Address>) {
    forall i, j :: 0 <= i < j < |rows| ==> !(rows[i].isDefault && rows[j].isDefault)
  }

  lemma CreateKeepsOneDefault(rows: seq<Address>, wanted: Option<bool>)
    requires OneDefault(rows)
    ensures OneDefault(CreateRow(rows, wanted))
    ensures wanted == Some(true) ==> CreateRow(rows, wanted)[|rows|].isDefault
  {
    var rows' := CreateRow(rows, wanted);
    NoLiveRows(rows);
    if rows'[|rows|].isDefault {
      forall i, j | 0 <= i < j < |rows'| ensures !(rows'[i].isDefault && rows'[j].isDefault) {
        assert !rows'[i].isDefault;
      }
    } else {
      var i :| 0 <= i < |rows| && rows[i].isDefault;
      assert rows'[i].isDefault;
    }
  }

  lemma UpdateKeepsOneDefault(rows: seq<Address>, id: nat, wanted: Option<bool>)
    requires OneDefault(rows) && UpdateRow(rows, id, wanted).Ok?
    ensures OneDefault(UpdateRow(rows, id, wanted).value)
    ensures wanted == Some(true) ==> UpdateRow(rows, id, wanted).value[id].isDefault
    ensures wanted.None? ==> UpdateRow(rows, id, wanted).value == rows
  {
    AtMostOneDefault(rows);
    var rows' := UpdateRow(rows, id, wanted).value;
    if wanted == Some(true) {
      assert rows'[id].isDefault;
    } else if wanted == Some(false) && rows[id].isDefault {
      var next := Newest(rows, Some(id));
      assert rows'[if next.Some? then next.value else id].isDefault;
    } else {
      assert !rows[id].deleted;
      var i :| 0 <= i < |rows| && rows[i].isDefault;
      assert rows'[i].isDefault;
    }
  }

  lemma DeleteKeepsOneDefault(rows: seq<Address>, id: nat)
    requires OneDefault(rows) && DeleteRow(rows, id).Ok?
    ensures OneDefault(DeleteRow(rows, id).value) && !IsLive(DeleteRow(rows, id).value, id)
    ensures var next := Newest(rows, Some(id));
            rows[id].isDefault && next.Some? ==> DeleteRow(rows, id).value[next.value].isDefault
  {
    var rows' := DeleteRow(rows, id).value;
    var left := rows[id := Address(false, true)];
    if rows[id].isDefault {
      if Newest(left, None).Some? {
        assert rows'[Newest(left, None).value].isDefault;
      }
    } else {
      assert !rows[id].deleted;
      var i :| 0 <= i < |rows| && rows[i].isDefault;
      assert rows'[i].isDefault;
    }
  }

  /** An address created without the flag, when there is another, leaves every other as it was; one
      created with it, or as the first, takes the flag from all others. */
  lemma CreateLeaves(rows: seq<Address>, wanted: Option<bool>)
    ensures |CreateRow(rows, wanted)| == |rows| + 1 && !CreateRow(rows, wanted)[|rows|].deleted
    ensures var rows' := CreateRow(rows, wanted);
            if wanted != Some(true) && exists i :: 0 <= i < |rows| && !rows[i].deleted
            then rows'[..|rows|] == rows && !rows'[|rows|].isDefault
            else rows'[|rows|].isDefault && forall i :: 0 <= i < |rows| ==>
                   rows'[i] == if rows[i].deleted then rows[i] else Address(false, false)
  {
    NoLiveRows(rows);
  }

  /** Making an address the default takes the flag from all others; clearing one that is not the
      default, or saying nothing, changes nothing. */
  lemma UpdateLeaves(rows: seq<Address>, id: nat, wanted: Option<bool>)
    ensures UpdateRow(rows, id, wanted).Ok? <==> id < |rows| && !rows[id].deleted
    ensures UpdateRow(rows, id, wanted).Ok? ==> |UpdateRow(rows, id, wanted).value| == |rows|
    ensures UpdateRow(rows, id, Some(true)).Ok? ==>
              forall i :: 0 <= i < |rows| ==>
                UpdateRow(rows, id, Some(true)).value[i] == if rows[i].deleted then rows[i] else Address(i == id, false)
    ensures UpdateRow(rows, id, Some(false)).Ok? && !rows[id].isDefault ==>
              UpdateRow(rows, id, Some(false)) == Ok(rows)
  {
    if IsLive(rows, id) && !rows[id].isDefault {
      assert rows[id := rows[id].(isDefault := false)] == rows;
    }
  }

  /** Deleting an address that is not the default changes no other; deleting the default gives the
      flag to the newest other live address and changes nothing else. */
  lemma DeleteLeaves(rows: seq<Address>, id: nat)
    requires OneDefault(rows)
    ensures DeleteRow(rows, id).Ok? <==> id < |rows| && !rows[id].deleted
    ensures DeleteRow(rows, id).Ok? ==>
              var rows', next := DeleteRow(rows, id).value, Newest(rows, Some(id));
              && |rows'| == |rows| && rows'[id] == Address(false, true)
              && forall i :: 0 <= i < |rows| && i != id ==>
                   rows'[i] == if rows[id].isDefault && next == Some(i) then Address(true, false) else rows[i]
  {
    if IsLive(rows, id) {
      NewestWithout(rows, id);
    }
  }

  /** Leaving a row out of account or marking it deleted comes to the same. */
  lemma {:induction false} NewestWithout(rows: seq<Address>, id: nat)
    requires id < |rows|
    ensures Newest(rows[id := Address(false, true)], None) == Newest(rows, Some(id))
  {
    hide Newest;
    var left := rows[id := Address(false, true)];
    assert forall j :: 0 <= j < |rows| && j != id ==> left[j] == rows[j];
  }

  /** Clearing the only default promotes the newest other live address; with no other address
      the row stays the default. */
  lemma ClearingPromotesNewest(rows: seq<Address>, id: nat)
    requires OneDefault(rows) && IsLive(rows, id) && rows[id].isDefault
    ensures UpdateRow(rows, id, Some(false)).Ok?
    ensures var next := Newest(rows, Some(id));
            var rows' := UpdateRow(rows, id, Some(false)).value;
            && (next.Some? ==> rows'[next.value].isDefault && !rows'[id].isDefault)
            && (next.None? ==> rows' == rows)
  {
    AtMostOneDefault(rows);
  }

  datatype Act = Create(wanted: Option<bool>) | Update(id: nat, wanted: Option<bool>) | Delete(id: nat)

  function Do(rows: seq<Address>, act: Act): seq<Address> {
    match act
    case Create(wanted) => CreateRow(rows, wanted)
    case Update(id, wanted) => (match UpdateRow(rows, id, wanted) case Ok(r) => r case Err(_) => rows)
    case Delete(id) => (match DeleteRow(rows, id) case Ok(r) => r case Err(_) => rows)
  }

  function DoAll(rows: seq<Address>, acts: seq<Act>): seq<Address>
    decreases |acts|
  {
    if acts == [] then rows else DoAll(Do(rows, acts[0]), acts[1..])
  }

  /** After any sequence of calls a customer with live addresses has exactly one default. */
  lemma {:induction false} RunKeepsOneDefault(rows: seq<Address>, acts: seq<Act>)
    requires OneDefault(rows)
    ensures OneDefault(DoAll(rows, acts))
    decreases |acts|
  {
    hide OneDefault, CreateRow, UpdateRow, DeleteRow;
    if acts != [] {
      var act := acts[0];
      match act {
        case Create(wanted) => CreateKeepsOneDefault(rows, wanted);
        case Update(id, wanted) => if UpdateRow(rows, id, wanted).Ok? { UpdateKeepsOneDefault(rows, id, wanted); }
        case Delete(id) => if DeleteRow(rows, id).Ok? { DeleteKeepsOneDefault(rows, id); }
      }
      RunKeepsOneDefault(Do(rows, act), acts[1..]);
    }
  }

  /** The address rows of one customer, updated in place statement by statement. */
  class AddressBook {
    var rows: seq<Address>

    constructor ()
      ensures rows == [] && OneDefault(rows)
    {
      rows := [];
    }

    method CreateAddress(wanted: Option<bool>) returns (id: nat)
      requires OneDefault(rows)
      modifies this
      ensures rows == CreateRow(old(rows), wanted) && OneDefault(rows) && id == |old(rows)|
    {
      CreateKeepsOneDefault(rows, wanted);
      var isDefault := LiveCount(rows) == 0 || wanted == Some(true);
      if isDefault {
        rows := ClearDefaults(rows);
      }
      id := |rows|;
      rows := rows + [Address(isDefault, false)];
    }

    method UpdateAddress(id: nat, wanted: Option<bool>) returns (r: Result<Address>)
      requires OneDefault(rows)
      modifies this
      ensures r.Ok? <==> UpdateRow(old(rows), id, wanted).Ok?
      ensures rows == Do(old(rows), Update(id, wanted)) && OneDefault(rows)
      ensures r.Ok? ==> id < |rows| && r.value == rows[id]
    {
      if !IsLive(rows, id) {
        return Err(NotFound);
      }
      UpdateKeepsOneDefault(rows, id, wanted);
      var existing := rows[id];
      if wanted == Some(true) {
        rows := ClearDefaults(rows);
      }
      var effective := wanted;
      if wanted == Some(false) && existing.isDefault {
        if DefaultCount(rows) <= 1 {
          var next := Newest(rows, Some(id));
          if next.Some? {
            rows := SetDefault(rows, next.value, true);
          } else {
            effective := Some(true);
          }
        }
      }
      if effective.Some? {
        rows := SetDefault(rows, id, effective.value);
      }
      r := Ok(rows[id]);
    }

    method SoftDeleteAddress(id: nat) returns (r: Result<Address>)
      requires OneDefault(rows)
      modifies this
      ensures r.Ok? <==> DeleteRow(old(rows), id).Ok?
      ensures rows == Do(old(rows), Delete(id)) && OneDefault(rows)
    {
      if !IsLive(rows, id) {
        return Err(NotFound);
      }
      DeleteKeepsOneDefault(rows, id);
      var existing := rows[id];
      rows := rows[id := Address(false, true)];
      if existing.isDefault {
        var next := Newest(rows, None);
        if next.Some? {
          rows := SetDefault(rows, next.value, true);
        }
      }
      r := Ok(existing);
    }
  }
}
