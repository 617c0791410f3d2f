/**
  The signed-in user's own routes (server/src/routes/users.ts): the profile update,
  the address book with its default-address handling, and the wishlist. The user
  document is a class whose `addresses` and `wishlist` lists the handlers change in
  place. The user schema (server/src/models/User.ts) is not part of this model.
 */
module UserRoutes {
  import opened Wrappers
  import ProductModel
  import Text
  import Lists

  type AddressId = nat

  datatype Address = Address(id: AddressId, kind: string, street: string, city: string, state: string,
                             zipCode: string, country: string, isDefault: bool)

  /** The request body of the address routes; an empty string is a field left out. */
  datatype AddressInput = AddressInput(kind: string, street: string, city: string, state: string,
                                       zipCode: string, country: string, isDefault: bool)

  /** No two addresses are both marked default. */
  predicate AtMostOneDefault(s: seq<Address>)
  {
    forall i, j :: 0 <= i < j < |s| ==> !(s[i].isDefault && s[j].isDefault)
  }

  /** `addresses.some(addr => addr.isDefault)` */
  predicate HasDefault(s: seq<Address>)
  {
    exists i :: 0 <= i < |s| && s[i].isDefault
  }

  /** The addresses with every default flag cleared. */
  function ClearDefaults(s: seq<Address>): seq<Address>
  {
    seq(|s|, i requires 0 <= i < |s| => s[i].(isDefault := false))
  }

  /** The entry `POST /addresses` builds: the country defaults to "United States". */
  function NewAddress(id: AddressId, input: AddressInput): Address
  {
    Address(id, input.kind, input.street, input.city, input.state, input.zipCode,
            Text.OrElse(input.country, "United States"), input.isDefault)
  }

  /** The list after `POST /addresses`: the first address, or one asked to be default, becomes the only default. */
  function AddedAddresses(s: seq<Address>, a: Address, makeDefault: bool): seq<Address>
  {
    if |s| == 0 || makeDefault then ClearDefaults(s) + [a.(isDefault := true)] else s + [a.(isDefault := false)]
  }

  /**
    Adding appends exactly one entry. The first address, or one asked to be default, is
    then the only default; otherwise the new entry is not default and the earlier ones
    are untouched. Either way at most one address is default.
   */
  lemma AddAddressDefaults(s: seq<Address>, a: Address, makeDefault: bool)
    ensures var r := AddedAddresses(s, a, makeDefault);
      |r| == |s| + 1 && r[|s|] == a.(isDefault := r[|s|].isDefault) &&
      (forall i :: 0 <= i < |s| ==> r[i] == s[i].(isDefault := r[i].isDefault)) &&
      ((|s| == 0 || makeDefault) ==> forall i :: 0 <= i < |r| ==> (r[i].isDefault <==> i == |s|)) &&
      (!(|s| == 0 || makeDefault) ==> r[..|s|] == s && !r[|s|].isDefault) &&
      (AtMostOneDefault(s) ==> AtMostOneDefault(r))
  {
    var r := AddedAddresses(s, a, makeDefault);
    if |s| == 0 || makeDefault {
      assert forall i :: 0 <= i < |s| ==> r[i] == s[i].(isDefault := false);
    } else {
      assert r[..|s|] == s;
    }
  }

  /** `findIndex` on the address id: the first position with that id, or -1. */
  function FindAddress(s: seq<Address>, id: AddressId): (r: int)
    ensures -1 <= r < |s|
    ensures r >= 0 ==> s[r].id == id && forall j :: 0 <= j < r ==> s[j].id != id
    ensures r == -1 ==> forall j :: 0 <= j < |s| ==> s[j].id != id
  {
    if |s| == 0 then -1
    else if s[0].id == id then 0
    else
      var k := FindAddress(s[1..], id);
      if k == -1 then -1 else k + 1
  }

  /** The field updates of `PUT /addresses/:id`: each supplied (non-empty) field replaces the stored one. */
  function UpdateFields(a: Address, input: AddressInput): Address
  {
    a.(kind := Text.OrElse(input.kind, a.kind), street := Text.OrElse(input.street, a.street),
       city := Text.OrElse(input.city, a.city), state := Text.OrElse(input.state, a.state),
       zipCode := Text.OrElse(input.zipCode, a.zipCode), country := Text.OrElse(input.country, a.country))
  }

  /** The flags after `addr.isDefault = index === addressIndex` on every address. */
  function OnlyDefault(s: seq<Address>, k: nat): seq<Address>
  {
    seq(|s|, i requires 0 <= i < |s| => s[i].(isDefault := i == k))
  }

  /** The list after updating the address at position `k`. */
  function UpdatedAddresses(s: seq<Address>, k: nat, input: AddressInput): seq<Address>
    requires k < |s|
  {
    var t := s[k := UpdateFields(s[k], input)];
    if input.isDefault then OnlyDefault(t, k) else t
  }

  /** A field after an update: the supplied value when there is one, the stored one otherwise. */
  predicate Supplied(stored: string, supplied: string, result: string)
  {
    (supplied != "" ==> result == supplied) && (supplied == "" ==> result == stored)
  }

  /**
    Updating changes only the target's supplied fields. With `isDefault` the target
    becomes the only default; without it no flag changes. At most one default is kept.
   */
  lemma UpdateAddressDefaults(s: seq<Address>, k: nat, input: AddressInput)
    requires k < |s|
    ensures var r := UpdatedAddresses(s, k, input);
      |r| == |s| && r[k].id == s[k].id &&
      (forall i :: 0 <= i < |s| && i != k ==> r[i] == s[i].(isDefault := r[i].isDefault)) &&
      (input.isDefault ==> forall i :: 0 <= i < |r| ==> (r[i].isDefault <==> i == k)) &&
      (!input.isDefault ==> forall i :: 0 <= i < |r| ==> r[i].isDefault == s[i].isDefault) &&
      Supplied(s[k].kind, input.kind, r[k].kind) && Supplied(s[k].street, input.street, r[k].street) &&
      Supplied(s[k].city, input.city, r[k].city) && Supplied(s[k].state, input.state, r[k].state) &&
      Supplied(s[k].zipCode, input.zipCode, r[k].zipCode) && Supplied(s[k].country, input.country, r[k].country) &&
      (AtMostOneDefault(s) ==> AtMostOneDefault(r))
  {
  }

  /** The list after deleting position `k`: if addresses remain and none is default, the first becomes default. */
  function DeletedAddresses(s: seq<Address>, k: nat): seq<Address>
    requires k < |s|
  {
    var t := s[..k] + s[k + 1..];
    if |t| > 0 && !HasDefault(t) then t[0 := t[0].(isDefault := true)] else t
  }

  /**
    Deleting removes exactly entry `k`. When what remains has a default, no flag
    changes; when it has none, the first remaining address, and only it, becomes
    default. What remains keeps at most one default and, if not empty, has one.
   */
  lemma DeleteAddressDefaults(s: seq<Address>, k: nat)
    requires k < |s|
    ensures var r := DeletedAddresses(s, k);
      var t := s[..k] + s[k + 1..];
      |r| == |s| - 1 &&
      (forall i :: 0 <= i < |r| ==> r[i] == (if i < k then s[i] else s[i + 1]).(isDefault := r[i].isDefault)) &&
      (HasDefault(t) ==> r == t) &&
      (!HasDefault(t) && |t| > 0 ==> r[0].isDefault && forall i :: 0 < i < |r| ==> r[i].isDefault == t[i].isDefault) &&
      (|r| > 0 ==> HasDefault(r)) &&
      (AtMostOneDefault(s) ==> AtMostOneDefault(r))
  {
    var t := s[..k] + s[k + 1..];
    var r := DeletedAddresses(s, k);
    if AtMostOneDefault(s) {
      forall i, j | 0 <= i < j < |t|
        ensures !(t[i].isDefault && t[j].isDefault)
      {
        var i', j' := if i < k then i else i + 1, if j < k then j else j + 1;
        assert t[i] == s[i'] && t[j] == s[j'];
      }
      if |t| > 0 && !HasDefault(t) {
        forall i, j | 0 <= i < j < |r|
          ensures !(r[i].isDefault && r[j].isDefault)
        {
          assert !t[j].isDefault;
        }
      }
    }
    if |r| > 0 && !HasDefault(t) {
      assert r[0].isDefault;
    }
  }

  /** No product twice on the list. */
  predicate Distinct(s: seq<ProductModel.ProductId>)
  {
    forall i, j :: 0 <= i < j < |s| ==> s[i] != s[j]
  }

  /** A stored user, with the fields these routes change. */
  class UserDocument {
    var name: string
    var phone: string
    var addresses: seq<Address>
    var wishlist: seq<ProductModel.ProductId>

    constructor (name: string)
      ensures this.name == name && phone == "" && addresses == [] && wishlist == []
    {
      this.name := name;
      phone := "";
      addresses := [];
      wishlist := [];
    }

    /**
      `PUT /profile`: a non-empty name or phone replaces the stored one; a supplied
      address list (even an empty one) replaces the whole list, unchecked.
     */
    method UpdateProfile(name: string, phone: string, addresses: Option<seq<Address>>)
      modifies this`name, this`phone, this`addresses
      ensures this.name == Text.OrElse(name, old(this.name))
      ensures this.phone == Text.OrElse(phone, old(this.phone))
      ensures this.addresses == if addresses.Some? then addresses.value else old(this.addresses)
    {
      if name != "" {
        this.name := name;
      }
      if phone != "" {
        this.phone := phone;
      }
      if addresses.Some? {
        this.addresses := addresses.value;
      }
    }

    /** `POST /addresses` (201): clears every default flag when the new entry is to be default, then appends. */
    method AddAddress(newId: AddressId, input: AddressInput) returns (code: int)
      modifies this`addresses
      ensures code == 201
      ensures addresses == AddedAddresses(old(addresses), NewAddress(newId, input), input.isDefault)
      ensures old(AtMostOneDefault(addresses)) ==> AtMostOneDefault(addresses)
    {
      AddAddressDefaults(addresses, NewAddress(newId, input), input.isDefault);
      var newAddress := NewAddress(newId, input);
      if |addresses| == 0 || input.isDefault {
        var i := 0;
        while i < |addresses|
          invariant 0 <= i <= |addresses| == |old(addresses)|
          invariant forall j :: 0 <= j < i ==> addresses[j] == old(addresses)[j].(isDefault := false)
          invariant forall j :: i <= j < |addresses| ==> addresses[j] == old(addresses)[j]
        {
          addresses := addresses[i := addresses[i].(isDefault := false)];
          i := i + 1;
        }
        newAddress := newAddress.(isDefault := true);
      } else {
        newAddress := newAddress.(isDefault := false);
      }
      addresses := addresses + [newAddress];
      return 201;
    }

    /** `PUT /addresses/:id`: 404 without change for an unknown id; otherwise the first address with it is updated. */
    method UpdateAddress(addressId: AddressId, input: AddressInput) returns (code: int)
      modifies this`addresses
      ensures FindAddress(old(addresses), addressId) == -1 ==> code == 404 && addresses == old(addresses)
      ensures FindAddress(old(addresses), addressId) >= 0 ==>
        code == 200 && addresses == UpdatedAddresses(old(addresses), FindAddress(old(addresses), addressId), input)
      ensures old(AtMostOneDefault(addresses)) ==> AtMostOneDefault(addresses)
    {
      var addressIndex := FindAddress(addresses, addressId);
      if addressIndex == -1 {
        return 404;
      }
      UpdateAddressDefaults(addresses, addressIndex, input);
      addresses := addresses[addressIndex := UpdateFields(addresses[addressIndex], input)];
      if input.isDefault {
        ghost var fielded := addresses;
        var i := 0;
        while i < |addresses|
          invariant 0 <= i <= |addresses| == |fielded|
          invariant forall j :: 0 <= j < i ==> addresses[j] == fielded[j].(isDefault := j == addressIndex)
          invariant forall j :: i <= j < |addresses| ==> addresses[j] == fielded[j]
        {
          addresses := addresses[i := addresses[i].(isDefault := i == addressIndex)];
          i := i + 1;
        }
      }
      return 200;
    }

    /** `DELETE /addresses/:id`: 404 without change for an unknown id; otherwise the first address with it is spliced out. */
    method DeleteAddress(addressId: AddressId) returns (code: int)
      modifies this`addresses
      ensures FindAddress(old(addresses), addressId) == -1 ==> code == 404 && addresses == old(addresses)
      ensures FindAddress(old(addresses), addressId) >= 0 ==>
        code == 200 && addresses == DeletedAddresses(old(addresses), FindAddress(old(addresses), addressId))
      ensures old(AtMostOneDefault(addresses)) ==> AtMostOneDefault(addresses)
    {
      var addressIndex := FindAddress(addresses, addressId);
      if addressIndex == -1 {
        return 404;
      }
      DeleteAddressDefaults(addresses, addressIndex);
      addresses := addresses[..addressIndex] + addresses[addressIndex + 1..];
      if |addresses| > 0 && !HasDefault(addresses) {
        addresses := addresses[0 := addresses[0].(isDefault := true)];
      }
      return 200;
    }

    /** `POST /wishlist/:productId`: 400 without change for a product already listed; otherwise appended once. */
    method AddToWishlist(productId: ProductModel.ProductId) returns (code: int)
      modifies this`wishlist
      ensures productId in old(wishlist) ==> code == 400 && wishlist == old(wishlist)
      ensures productId !in old(wishlist) ==> code == 200 && wishlist == old(wishlist) + [productId]
      ensures old(Distinct(wishlist)) ==> Distinct(wishlist)
    {
      if productId in wishlist {
        return 400;
      }
      wishlist := wishlist + [productId];
      return 200;
    }

    /** `DELETE /wishlist/:productId`: every occurrence is filtered out; removing an absent product changes nothing. */
    method RemoveFromWishlist(productId: ProductModel.ProductId)
      modifies this`wishlist
      ensures wishlist == Lists.Without(old(wishlist), productId)
      ensures productId !in old(wishlist) ==> wishlist == old(wishlist)
    {
      if productId !in wishlist {
        Lists.WithoutAbsent(wishlist, productId);
      }
      wishlist := Lists.Without(wishlist, productId);
    }
  }
}
