/** Stand-ins for the Sui SDK types the deployment tool handles, and the
    iterator `filter` step its object-resolution code is built from.

    The SDK's identifiers are opaque here: each one carries only the text its
    `Display` implementation prints, which never contains a line break. How
    such text is parsed back is not modelled; the operations that parse take
    the parser as a parameter. */
module Sui {

  /** A string without a line break. */
  type Line = s: string | '\n' !in s

  /** Rust's `u8` and `u64`. */
  type u8 = x: nat | x < 0x100
  type u64 = x: nat | x < 0x1_0000_0000_0000_0000

  /** Rust's `x as u8` on an unsigned integer: keep the low eight bits. */
  function AsU8(x: nat): u8 {
    x % 0x100
  }

  datatype Option<T> = None | Some(value: T)

  datatype Result<T, E> = Ok(value: T) | Err(error: E)

  /** `ObjectID`, `SuiAddress`, `AccountAddress` and `TypeTag`, by their
      displayed form. */
  datatype ObjectID = ObjectID(text: Line)
  datatype SuiAddress = SuiAddress(text: Line)
  datatype AccountAddress = AccountAddress(text: Line)
  datatype TypeTag = TypeTag(text: Line)

  /** Who owns an on-chain object. */
  datatype Owner =
    | AddressOwner(address: SuiAddress)
    | ObjectOwner(parent: SuiAddress)
    | Shared(initialSharedVersion: nat)
    | Immutable

  /** Sui's `Owner == SuiAddress` comparison: only an object owned directly
      by that address compares equal; shared, immutable and object-owned
      objects never do. */
  predicate OwnedBy(owner: Owner, address: SuiAddress) {
    owner.AddressOwner? && owner.address == address
  }

  /** An object reference (its digest is not modelled). */
  datatype ObjectRef = ObjectRef(objectId: ObjectID, version: nat)

  /** An entry of a transaction's `created()` effects. */
  datatype OwnedObjectRef = OwnedObjectRef(owner: Owner, reference: ObjectRef)

  /** The effects of an executed transaction, as far as the tool reads them. */
  datatype TransactionEffects = TransactionEffects(created: seq<OwnedObjectRef>)

  /** `iter().filter(p).collect()`: the elements satisfying `p`, in order. */
  function Filter<T>(p: T -> bool, s: seq<T>): (r: seq<T>)
    ensures |r| <= |s|
    ensures forall x :: x in r ==> x in s && p(x)
  {
    if s == [] then []
    else (if p(s[0]) then [s[0]] else []) + Filter(p, s[1..])
  }

  /** `Filter` keeps nothing exactly when nothing satisfies `p`, and otherwise
      begins with the first element that does. */
  lemma {:induction false} FilterFirst<T>(p: T -> bool, s: seq<T>)
    ensures Filter(p, s) == [] <==> forall k :: 0 <= k < |s| ==> !p(s[k])
    ensures Filter(p, s) != [] ==>
      exists i :: 0 <= i < |s| && p(s[i]) && Filter(p, s)[0] == s[i] &&
        forall k :: 0 <= k < i ==> !p(s[k])
  {
    if s != [] {
      FilterFirst(p, s[1..]);
      if !p(s[0]) && Filter(p, s) != [] {
        var i :| 0 <= i < |s[1..]| && p(s[1..][i]) && Filter(p, s[1..])[0] == s[1..][i] &&
          forall k :: 0 <= k < i ==> !p(s[1..][k]);
        assert p(s[i + 1]) && Filter(p, s)[0] == s[i + 1];
        forall k | 0 <= k < i + 1 ensures !p(s[k]) {
          if k > 0 { assert s[k] == s[1..][k - 1]; }
        }
      }
      if Filter(p, s) == [] {
        forall k | 0 <= k < |s| ensures !p(s[k]) {
          if k > 0 { assert s[k] == s[1..][k - 1]; }
        }
      }
    }
  }

  /** Filtering a concatenation filters each part. */
  lemma {:induction false} FilterAppend<T>(p: T -> bool, a: seq<T>, b: seq<T>)
    ensures Filter(p, a + b) == Filter(p, a) + Filter(p, b)
  {
    if a == [] {
      assert a + b == b;
    } else {
      assert (a + b)[1..] == a[1..] + b;
      FilterAppend(p, a[1..], b);
    }
  }

  /** Exactly one element satisfies `p`, at index `i`. */
  ghost predicate OnlyAt<T>(p: T -> bool, s: seq<T>, i: int) {
    0 <= i < |s| && p(s[i]) && forall k :: 0 <= k < |s| && k != i ==> !p(s[k])
  }

  /** Exactly two elements satisfy `p`, at indices `i < j`. */
  ghost predicate OnlyAtPair<T>(p: T -> bool, s: seq<T>, i: int, j: int) {
    0 <= i < j < |s| && p(s[i]) && p(s[j]) &&
    forall k :: 0 <= k < |s| && k != i && k != j ==> !p(s[k])
  }

  /** `Filter` keeps one element exactly when one element satisfies `p`. */
  lemma {:induction false} FilterSingle<T>(p: T -> bool, s: seq<T>)
    ensures |Filter(p, s)| == 1 <==> exists i :: OnlyAt(p, s, i)
    ensures forall i :: OnlyAt(p, s, i) ==> Filter(p, s) == [s[i]]
  {
    if s != [] {
      var t := s[1..];
      FilterSingle(p, t);
      FilterFirst(p, t);
      forall i | OnlyAt(p, s, i) ensures Filter(p, s) == [s[i]] {
        if i == 0 {
          forall k | 0 <= k < |t| ensures !p(t[k]) { assert t[k] == s[k + 1]; }
        } else {
          assert OnlyAt(p, t, i - 1) by {
            forall k | 0 <= k < |t| && k != i - 1 ensures !p(t[k]) { assert t[k] == s[k + 1]; }
          }
        }
      }
      if |Filter(p, s)| == 1 {
        if p(s[0]) {
          assert Filter(p, t) == [];
          assert OnlyAt(p, s, 0) by {
            forall k | 0 <= k < |s| && k != 0 ensures !p(s[k]) { assert s[k] == t[k - 1]; }
          }
        } else {
          var j :| OnlyAt(p, t, j);
          assert OnlyAt(p, s, j + 1) by {
            forall k | 0 <= k < |s| && k != j + 1 ensures !p(s[k]) {
              if k > 0 { assert s[k] == t[k - 1]; }
            }
          }
        }
      }
    }
  }

  /** When exactly two elements satisfy `p`, `Filter` keeps those two, in order. */
  lemma {:induction false} FilterPairAt<T>(p: T -> bool, s: seq<T>, i: int, j: int)
    requires OnlyAtPair(p, s, i, j)
    ensures Filter(p, s) == [s[i], s[j]]
  {
    var t := s[1..];
    if i == 0 {
      assert OnlyAt(p, t, j - 1) by {
        forall k | 0 <= k < |t| && k != j - 1 ensures !p(t[k]) { assert t[k] == s[k + 1]; }
      }
      FilterSingle(p, t);
    } else {
      assert OnlyAtPair(p, t, i - 1, j - 1) by {
        forall k | 0 <= k < |t| && k != i - 1 && k != j - 1 ensures !p(t[k]) {
          assert t[k] == s[k + 1];
        }
      }
      FilterPairAt(p, t, i - 1, j - 1);
    }
  }

  /** `Filter` keeps two elements exactly when two elements satisfy `p`. */
  lemma {:induction false} FilterPair<T>(p: T -> bool, s: seq<T>)
    ensures |Filter(p, s)| == 2 <==> exists i, j :: OnlyAtPair(p, s, i, j)
    ensures |Filter(p, s)| == 2 ==>
      exists i, j :: OnlyAtPair(p, s, i, j) && Filter(p, s) == [s[i], s[j]]
  {
    if exists i, j :: OnlyAtPair(p, s, i, j) {
      var i, j :| OnlyAtPair(p, s, i, j);
      FilterPairAt(p, s, i, j);
    }
    if s != [] && |Filter(p, s)| == 2 {
      var t := s[1..];
      if p(s[0]) {
        FilterSingle(p, t);
        var j :| OnlyAt(p, t, j);
        assert OnlyAtPair(p, s, 0, j + 1) by {
          forall k | 0 <= k < |s| && k != 0 && k != j + 1 ensures !p(s[k]) { assert s[k] == t[k - 1]; }
        }
      } else {
        FilterPair(p, t);
        var i, j :| OnlyAtPair(p, t, i, j);
        assert OnlyAtPair(p, s, i + 1, j + 1) by {
          forall k | 0 <= k < |s| && k != i + 1 && k != j + 1 ensures !p(s[k]) {
            if k > 0 { assert s[k] == t[k - 1]; }
          }
        }
      }
    }
  }
}
