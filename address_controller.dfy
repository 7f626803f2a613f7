/**
  Saving and listing delivery addresses (server/controller/address.controller.js):
  the payload check, the required keys in their order, the guest owner, the
  renaming of the client's field names and the numeric zip code.
 */
module AddressController {
  import opened Js
  import opened Http
  import OrderSchema
  import OrderController

  /** The keys the request's address must carry, in the order they are checked. */
  const RequiredKeys: seq<string> :=
    ["firstname", "lastname", "email", "street", "city", "state", "zipcode", "country", "phone"]

  /** Who an address belongs to: the signed-in user, or a guest known by the
      email value of the request (stored as "guest:" followed by its text). */
  datatype Owner = UserOwner(id: string) | GuestOwner(email: JsValue)

  /** The document `Address.create` receives. Fields keep the values the
      request sent, except `zipCode`, the value of `Number(zipcode)`. */
  datatype AddressDoc = AddressDoc(
    owner: Owner,
    firstName: JsValue,
    lastName: JsValue,
    email: JsValue,
    street: JsValue,
    city: JsValue,
    state: JsValue,
    zipCode: JsNumber,
    country: JsValue,
    phone: JsValue)

  /** The stored owner id, when the model knows its text: the user id, or
      "guest:" and a string email. */
  function OwnerText(o: Owner): Option<string>
  {
    match o
    case UserOwner(id) => Some(id)
    case GuestOwner(Str(e)) => Some(OrderController.GuestPrefix + e)
    case GuestOwner(_) => None
  }

  /** The first required key whose value is missing or falsy. */
  function FirstMissing(address: JsValue, keys: seq<string>): (r: Option<string>)
    ensures r.None? <==> forall i :: 0 <= i < |keys| ==> Truthy(Get(address, keys[i]))
    ensures r.Some? ==> exists i :: 0 <= i < |keys| && keys[i] == r.value && !Truthy(Get(address, keys[i]))
                                    && forall j :: 0 <= j < i ==> Truthy(Get(address, keys[j]))
  {
    if keys == [] then None
    else if !Truthy(Get(address, keys[0])) then Some(keys[0])
    else
      var r := FirstMissing(address, keys[1..]);
      assert forall i :: 0 < i < |keys| ==> keys[i] == keys[1..][i - 1];
      if r.Some? then
        var i :| 0 <= i < |keys[1..]| && keys[1..][i] == r.value && !Truthy(Get(address, keys[1..][i]))
                 && forall j :: 0 <= j < i ==> Truthy(Get(address, keys[1..][j]));
        assert keys[i + 1] == r.value && forall j :: 0 <= j < i + 1 ==> Truthy(Get(address, keys[j]));
        r
      else r
  }

  const InvalidPayload: Reply := Reply(400, "Invalid address payload")
  const ZipNotNumber: Reply := Reply(400, "zipcode must be a number")

  /** The handler's decision: the payload check, the first missing key, the
      owner, the renamed fields and the zip code check. */
  function Admit(user: Option<string>, address: JsValue): (r: Outcome<AddressDoc>)
    ensures !Truthy(address) || !IsObject(address) ==> r == Fail(InvalidPayload)
    ensures r.Ok? <==> && Truthy(address) && IsObject(address)
                       && (forall i :: 0 <= i < |RequiredKeys| ==> Truthy(Get(address, RequiredKeys[i])))
                       && ToNumber(Get(address, "zipcode")).Some?
    ensures (&& Truthy(address) && IsObject(address)
             && (forall i :: 0 <= i < |RequiredKeys| ==> Truthy(Get(address, RequiredKeys[i])))
             && ToNumber(Get(address, "zipcode")).None?) ==> r == Fail(ZipNotNumber)
    ensures r.Ok? ==> && r.value.firstName == Get(address, "firstname")
                      && r.value.lastName == Get(address, "lastname")
                      && r.value.email == Get(address, "email")
                      && r.value.street == Get(address, "street")
                      && r.value.city == Get(address, "city")
                      && r.value.state == Get(address, "state")
                      && r.value.country == Get(address, "country")
                      && r.value.phone == Get(address, "phone")
                      && Some(r.value.zipCode) == ToNumber(Get(address, "zipcode"))
    ensures r.Ok? ==> r.value.owner == if user.Some? && user.value != "" then UserOwner(user.value)
                                         else GuestOwner(Get(address, "email"))
  {
    if !Truthy(address) || !IsObject(address) then Fail(InvalidPayload)
    else match FirstMissing(address, RequiredKeys)
      case Some(key) => Fail(Reply(400, key + " is required"))
      case None =>
        var owner := if user.Some? && user.value != "" then UserOwner(user.value) else GuestOwner(Get(address, "email"));
        match ToNumber(Get(address, "zipcode"))
        case None => Fail(ZipNotNumber)
        case Some(zip) =>
          Ok(AddressDoc(owner, Get(address, "firstname"), Get(address, "lastname"), Get(address, "email"),
                        Get(address, "street"), Get(address, "city"), Get(address, "state"), zip,
                        Get(address, "country"), Get(address, "phone")))
  }

  /** Only the first missing key is reported, in the fixed order. */
  lemma ReportsFirstMissing(user: Option<string>, address: JsValue, k: nat)
    requires Truthy(address) && IsObject(address)
    requires k < |RequiredKeys| && !Truthy(Get(address, RequiredKeys[k]))
    requires forall j :: 0 <= j < k ==> Truthy(Get(address, RequiredKeys[j]))
    ensures Admit(user, address) == Fail(Reply(400, RequiredKeys[k] + " is required"))
  {
    var r := FirstMissing(address, RequiredKeys);
    var i :| 0 <= i < |RequiredKeys| && RequiredKeys[i] == r.value && !Truthy(Get(address, RequiredKeys[i]))
             && forall j :: 0 <= j < i ==> Truthy(Get(address, RequiredKeys[j]));
    assert i == k;
  }

  /** A blank zip code passes the required check only when it is not empty:
      a zip of spaces is truthy and reads as the number 0. */
  lemma SpacesZipReadsAsZero(address: JsValue)
    requires Get(address, "zipcode") == Str(" ")
    ensures Truthy(Get(address, "zipcode")) && ToNumber(Get(address, "zipcode")) == Some(Finite(0.0))
  {
    assert Trim(" ") == "";
  }

  /** A zip code in exponent form such as "1e3" is a number, so a payload
      that is otherwise complete is admitted with the zip code's value. */
  lemma ExponentZipAdmitted(user: Option<string>, address: JsValue, d: string, q: string, negative: bool)
    requires Truthy(address) && IsObject(address)
    requires forall i :: 0 <= i < |RequiredKeys| ==> Truthy(Get(address, RequiredKeys[i]))
    requires d != [] && AllDigits(d) && q != [] && AllDigits(q)
    requires Get(address, "zipcode") == Str(d + ['e'] + (if negative then "-" else "") + q)
    ensures Admit(user, address).Ok?
    ensures Admit(user, address).value.zipCode
            == Finite(Scale(DigitsValue(d) as real, if negative then -(DigitsValue(q) as int) else DigitsValue(q) as int))
  {
    ExponentRead(d, 'e', q, negative);
    AdmittedZip(user, address, Finite(Scale(DigitsValue(d) as real, if negative then -(DigitsValue(q) as int) else DigitsValue(q) as int)));
  }

  /** A complete payload whose zip code reads as a number is admitted with it. */
  lemma AdmittedZip(user: Option<string>, address: JsValue, value: JsNumber)
    requires Truthy(address) && IsObject(address)
    requires forall i :: 0 <= i < |RequiredKeys| ==> Truthy(Get(address, RequiredKeys[i]))
    requires ToNumber(Get(address, "zipcode")) == Some(value)
    ensures Admit(user, address).Ok? && Admit(user, address).value.zipCode == value
  {
  }

  /** A guest's saved address and a guest's order made with it name the same owner. */
  lemma GuestOwnersAgree(address: JsValue, email: string, stored: OrderSchema.StoredAddress)
    requires Admit(None, address).Ok? && Get(address, "email") == Str(email) && stored.email == email
    ensures OwnerText(Admit(None, address).value.owner) == Some(OrderController.OwnerId(None, stored))
  {
  }

  /** The addresses collection; ids are allocated in creation order. */
  class AddressBook {
    var docs: map<nat, AddressDoc>
    var nextId: nat

    ghost predicate Valid()
      reads this
    {
      forall id :: id in docs ==> id < nextId
    }

    constructor ()
      ensures Valid() && docs == map[] && nextId == 0
    {
      docs := map[];
      nextId := 0;
    }

    /** POST /api/address/add: stores one document, or none on a 400. */
    method AddAddress(user: Option<string>, address: JsValue) returns (reply: Reply)
      requires Valid()
      modifies this
      ensures Valid()
      ensures Admit(user, address).Fail? ==> reply == Admit(user, address).reply && docs == old(docs) && nextId == old(nextId)
      ensures Admit(user, address).Ok? ==>
                && reply == Reply(201, "Address added successfully")
                && docs == old(docs)[old(nextId) := Admit(user, address).value] && nextId == old(nextId) + 1
    {
      if !Truthy(address) || !IsObject(address) {
        return InvalidPayload;
      }
      var i := 0;
      while i < |RequiredKeys|
        invariant 0 <= i <= |RequiredKeys|
        invariant forall j :: 0 <= j < i ==> Truthy(Get(address, RequiredKeys[j]))
      {
        var key := RequiredKeys[i];
        if !Truthy(Get(address, key)) {
          ReportsFirstMissing(user, address, i);
          return Reply(400, key + " is required");
        }
        i := i + 1;
      }
      var owner := if user.Some? && user.value != "" then UserOwner(user.value) else GuestOwner(Get(address, "email"));
      var zip := ToNumber(Get(address, "zipcode"));
      if zip.None? {
        return ZipNotNumber;
      }
      var doc := AddressDoc(owner, Get(address, "firstname"), Get(address, "lastname"), Get(address, "email"),
                            Get(address, "street"), Get(address, "city"), Get(address, "state"), zip.value,
                            Get(address, "country"), Get(address, "phone"));
      docs := docs[nextId := doc];
      nextId := nextId + 1;
      reply := Reply(201, "Address added successfully");
    }

    /** GET /api/address/get for `caller`: the caller's addresses in storage order. */
    function GetAddress(caller: string): (r: seq<AddressDoc>)
      reads this
      ensures forall i :: 0 <= i < |r| ==> OwnerText(r[i].owner) == Some(caller) && r[i] in docs.Values
      ensures forall id :: id in docs && id < nextId && OwnerText(docs[id].owner) == Some(caller) ==> docs[id] in r
      ensures forall d :: multiset(r)[d] == |CopiesBelow(docs, caller, nextId, d)|
    {
      OwnedBelow(docs, caller, nextId)
    }
  }

  /** The documents with id below `n` owned by `caller`, in id order; a
      document stored twice is listed twice. */
  function OwnedBelow(docs: map<nat, AddressDoc>, caller: string, n: nat): (r: seq<AddressDoc>)
    ensures forall i :: 0 <= i < |r| ==> OwnerText(r[i].owner) == Some(caller) && r[i] in docs.Values
    ensures forall id :: id in docs && id < n && OwnerText(docs[id].owner) == Some(caller) ==> docs[id] in r
    ensures forall d :: multiset(r)[d] == |CopiesBelow(docs, caller, n, d)|
  {
    if n == 0 then []
    else
      var rest := OwnedBelow(docs, caller, n - 1);
      CopiesStep(docs, caller, n);
      if n - 1 in docs && OwnerText(docs[n - 1].owner) == Some(caller) then rest + [docs[n - 1]] else rest
  }

  /** The ids below `n` under which `caller` has the document `d` stored. */
  function CopiesBelow(docs: map<nat, AddressDoc>, caller: string, n: nat, d: AddressDoc): set<nat>
  {
    set id: nat | id < n && id in docs && OwnerText(docs[id].owner) == Some(caller) && docs[id] == d
  }

  /** Raising the bound by one adds id `n - 1` to the copies of its own
      document, when `caller` owns it, and to no other. */
  lemma CopiesStep(docs: map<nat, AddressDoc>, caller: string, n: nat)
    requires n > 0
    ensures forall d :: |CopiesBelow(docs, caller, n, d)|
                        == |CopiesBelow(docs, caller, n - 1, d)|
                           + (if n - 1 in docs && OwnerText(docs[n - 1].owner) == Some(caller) && docs[n - 1] == d then 1 else 0)
  {
    forall d
      ensures |CopiesBelow(docs, caller, n, d)|
              == |CopiesBelow(docs, caller, n - 1, d)|
                 + (if n - 1 in docs && OwnerText(docs[n - 1].owner) == Some(caller) && docs[n - 1] == d then 1 else 0)
    {
      var before := CopiesBelow(docs, caller, n - 1, d);
      if n - 1 in docs && OwnerText(docs[n - 1].owner) == Some(caller) && docs[n - 1] == d {
        assert CopiesBelow(docs, caller, n, d) == before + {n - 1};
        assert n - 1 !in before;
      } else {
        assert CopiesBelow(docs, caller, n, d) == before;
      }
    }
  }
}
