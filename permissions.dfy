/** The permission utility: decoding a request mask into Android permission names,
    checking them against what the platform has granted, and asking for them when
    one is missing. */
module Permissions {

  /** Request flags. Each is a distinct power of two, so a caller combines them with `|`. */
  const CAMERA: bv32 := 1
  const EXTERNAL_STORAGE: bv32 := 2
  const LOCATION: bv32 := 4

  /** Decimal 111 (binary 1101111): the request code of every permission request. Read as a
      mask it sets all three flags, and also bits 8, 32 and 64, which no flag uses. */
  const ALL: bv32 := 111

  /** The Android permission names the utility asks for. */
  datatype Permission =
    | Camera                // android.permission.CAMERA
    | WriteExternalStorage  // android.permission.WRITE_EXTERNAL_STORAGE
    | ReadExternalStorage   // android.permission.READ_EXTERNAL_STORAGE
    | AccessFineLocation    // android.permission.ACCESS_FINE_LOCATION
    | AccessCoarseLocation  // android.permission.ACCESS_COARSE_LOCATION

  /** The request flag under which permission `p` is asked for. */
  function Flag(p: Permission): (flag: bv32) {
    match p
    case Camera => CAMERA
    case WriteExternalStorage | ReadExternalStorage => EXTERNAL_STORAGE
    case AccessFineLocation | AccessCoarseLocation => LOCATION
  }

  /** Every permission the utility knows, in the order in which it lists them. */
  const CATALOGUE: seq<Permission> :=
    [Camera, WriteExternalStorage, ReadExternalStorage, AccessFineLocation, AccessCoarseLocation]

  /** Position of a permission in CATALOGUE. */
  function Rank(p: Permission): (position: nat) {
    match p
    case Camera => 0
    case WriteExternalStorage => 1
    case ReadExternalStorage => 2
    case AccessFineLocation => 3
    case AccessCoarseLocation => 4
  }

  predicate IsSingleBit(b: bv32) {
    b != 0 && b & (b - 1) == 0
  }

  /** True when the mask `request` has the flag of `p` set. */
  predicate IsRequested(request: bv32, p: Permission) {
    request & Flag(p) == Flag(p)
  }

  /** The entries of `catalogue` whose flag is set in `request`, in catalogue order. */
  function Select(catalogue: seq<Permission>, request: bv32): (selected: seq<Permission>) {
    if catalogue == [] then []
    else (if IsRequested(request, catalogue[0]) then [catalogue[0]] else [])
         + Select(catalogue[1..], request)
  }

  /** The permission names a request mask stands for: the catalogue filtered by the mask. */
  function Requested(request: bv32): (permissions: seq<Permission>) {
    Select(CATALOGUE, request)
  }

  /** Every entry of `ps` is granted. */
  predicate AllGranted(ps: seq<Permission>, granted: set<Permission>) {
    forall i :: 0 <= i < |ps| ==> ps[i] in granted
  }

  /** `a` is immediately followed by `b` somewhere in `ps`. */
  predicate Adjacent(ps: seq<Permission>, a: Permission, b: Permission) {
    exists i :: 0 <= i < |ps| - 1 && ps[i] == a && ps[i + 1] == b
  }

  /** Each entry comes strictly later in CATALOGUE than the one before it. */
  predicate StrictlyRanked(ps: seq<Permission>) {
    forall i, j :: 0 <= i < j < |ps| ==> Rank(ps[i]) < Rank(ps[j])
  }

  function Indicator(b: bool): nat {
    if b then 1 else 0
  }

  // ---------------------------------------------------------------------------
  // The flag constants

  lemma FlagsAreDistinctSingleBits()
    ensures IsSingleBit(CAMERA) && IsSingleBit(EXTERNAL_STORAGE) && IsSingleBit(LOCATION)
    ensures CAMERA & EXTERNAL_STORAGE == 0 && CAMERA & LOCATION == 0 && EXTERNAL_STORAGE & LOCATION == 0
    ensures CAMERA == 1 && EXTERNAL_STORAGE == 2 && LOCATION == 4
  {
  }

  /** ALL sets every flag, so it requests the whole catalogue; it is not CAMERA | EXTERNAL_STORAGE | LOCATION. */
  lemma AllRequestsEverything()
    ensures forall p :: IsRequested(ALL, p)
    ensures ALL != CAMERA | EXTERNAL_STORAGE | LOCATION
    ensures Requested(ALL) == CATALOGUE
  {
    RequestedShape(ALL);
  }

  // ---------------------------------------------------------------------------
  // What Requested contains

  lemma {:induction false} SelectMembership(catalogue: seq<Permission>, request: bv32, p: Permission)
    ensures p in Select(catalogue, request) <==> p in catalogue && IsRequested(request, p)
  {
    if catalogue != [] {
      SelectMembership(catalogue[1..], request, p);
      assert catalogue == [catalogue[0]] + catalogue[1..];
    }
  }

  /** A permission is listed exactly when its flag is set in the mask. */
  lemma ListedIffFlagSet(request: bv32, p: Permission)
    ensures p in Requested(request) <==> request & Flag(p) == Flag(p)
  {
    SelectMembership(CATALOGUE, request, p);
    assert CATALOGUE[Rank(p)] == p;
  }

  /** Requested written out as the three groups of the mask, in order. */
  lemma RequestedShape(request: bv32)
    ensures Requested(request) ==
      (if request & CAMERA == CAMERA then [Camera] else [])
      + (if request & EXTERNAL_STORAGE == EXTERNAL_STORAGE then [WriteExternalStorage, ReadExternalStorage] else [])
      + (if request & LOCATION == LOCATION then [AccessFineLocation, AccessCoarseLocation] else [])
  {
    var c1 := [WriteExternalStorage, ReadExternalStorage, AccessFineLocation, AccessCoarseLocation];
    var c2 := [ReadExternalStorage, AccessFineLocation, AccessCoarseLocation];
    var c3 := [AccessFineLocation, AccessCoarseLocation];
    var c4 := [AccessCoarseLocation];
    assert CATALOGUE[1..] == c1 && c1[1..] == c2 && c2[1..] == c3 && c3[1..] == c4 && c4[1..] == [];
    var storage := request & EXTERNAL_STORAGE == EXTERNAL_STORAGE;
    var location := request & LOCATION == LOCATION;
    assert Select(c4, request) == if location then [AccessCoarseLocation] else [];
    assert Select(c3, request) == if location then [AccessFineLocation, AccessCoarseLocation] else [];
    assert Select(c2, request) == (if storage then [ReadExternalStorage] else []) + Select(c3, request);
    assert Select(c1, request) == (if storage then [WriteExternalStorage] else []) + Select(c2, request);
  }

  /** WRITE_EXTERNAL_STORAGE immediately followed by READ_EXTERNAL_STORAGE appears iff the storage flag is set. */
  lemma StoragePairIff(request: bv32)
    ensures Adjacent(Requested(request), WriteExternalStorage, ReadExternalStorage)
            <==> request & EXTERNAL_STORAGE == EXTERNAL_STORAGE
  {
    var ps := Requested(request);
    RequestedShape(request);
    if request & EXTERNAL_STORAGE == EXTERNAL_STORAGE {
      var i := if request & CAMERA == CAMERA then 1 else 0;
      assert ps[i] == WriteExternalStorage && ps[i + 1] == ReadExternalStorage;
    }
    if Adjacent(ps, WriteExternalStorage, ReadExternalStorage) {
      var i :| 0 <= i < |ps| - 1 && ps[i] == WriteExternalStorage;
      ListedIffFlagSet(request, WriteExternalStorage);
    }
  }

  /** ACCESS_FINE_LOCATION immediately followed by ACCESS_COARSE_LOCATION appears iff the location flag is set. */
  lemma LocationPairIff(request: bv32)
    ensures Adjacent(Requested(request), AccessFineLocation, AccessCoarseLocation)
            <==> request & LOCATION == LOCATION
  {
    var ps := Requested(request);
    RequestedShape(request);
    if request & LOCATION == LOCATION {
      var i := Indicator(request & CAMERA == CAMERA) + 2 * Indicator(request & EXTERNAL_STORAGE == EXTERNAL_STORAGE);
      assert ps[i] == AccessFineLocation && ps[i + 1] == AccessCoarseLocation;
    }
    if Adjacent(ps, AccessFineLocation, AccessCoarseLocation) {
      var i :| 0 <= i < |ps| - 1 && ps[i] == AccessFineLocation;
      ListedIffFlagSet(request, AccessFineLocation);
    }
  }

  lemma RequestedLength(request: bv32)
    ensures |Requested(request)| ==
      Indicator(request & CAMERA == CAMERA)
      + 2 * Indicator(request & EXTERNAL_STORAGE == EXTERNAL_STORAGE)
      + 2 * Indicator(request & LOCATION == LOCATION)
  {
    RequestedShape(request);
  }

  /** Mask bits other than 1, 2 and 4 make no difference to the list. */
  lemma OtherBitsIgnored(request: bv32, other: bv32)
    requires other & (CAMERA | EXTERNAL_STORAGE | LOCATION) == 0
    ensures Requested(request | other) == Requested(request)
  {
    RequestedShape(request);
    RequestedShape(request | other);
  }

  /** The list is camera, then storage, then location, with no permission twice. */
  lemma {:induction false} SelectKeepsOrder(catalogue: seq<Permission>, request: bv32)
    requires StrictlyRanked(catalogue)
    ensures StrictlyRanked(Select(catalogue, request))
  {
    if catalogue != [] {
      var rest := catalogue[1..];
      SelectKeepsOrder(rest, request);
      var tail := Select(rest, request);
      var ps := Select(catalogue, request);
      if IsRequested(request, catalogue[0]) {
        assert ps == [catalogue[0]] + tail;
        forall i, j | 0 <= i < j < |ps| ensures Rank(ps[i]) < Rank(ps[j]) {
          if i == 0 {
            assert ps[j] == tail[j - 1] && ps[i] == catalogue[0];
            SelectMembership(rest, request, ps[j]);
            var k :| 0 <= k < |rest| && rest[k] == ps[j];
            assert catalogue[k + 1] == ps[j];
          } else {
            assert ps[i] == tail[i - 1] && ps[j] == tail[j - 1];
          }
        }
      } else {
        assert ps == tail;
      }
    }
  }

  lemma RequestedInCatalogueOrder(request: bv32)
    ensures StrictlyRanked(Requested(request))
  {
    forall i | 0 <= i < |CATALOGUE| ensures Rank(CATALOGUE[i]) == i {
    }
    SelectKeepsOrder(CATALOGUE, request);
  }

  /** A mask with none of the three flags asks for nothing, and nothing is trivially granted. */
  lemma EmptyRequestIsGranted(request: bv32, granted: set<Permission>)
    requires request & (CAMERA | EXTERNAL_STORAGE | LOCATION) == 0
    ensures Requested(request) == []
    ensures AllGranted(Requested(request), granted)
  {
    RequestedShape(request);
  }

  // ---------------------------------------------------------------------------
  // The utility's steps

  /** The chain of ifs that appends, group by group, the names the mask asks for. */
  method BuildPermissionList(permissionRequest: bv32) returns (permissionsList: seq<Permission>)
    ensures permissionsList == Requested(permissionRequest)
  {
    permissionsList := [];
    if permissionRequest & CAMERA == CAMERA {
      permissionsList := permissionsList + [Camera];
    }
    if permissionRequest & EXTERNAL_STORAGE == EXTERNAL_STORAGE {
      permissionsList := permissionsList + [WriteExternalStorage];
      permissionsList := permissionsList + [ReadExternalStorage];
    }
    if permissionRequest & LOCATION == LOCATION {
      permissionsList := permissionsList + [AccessFineLocation];
      permissionsList := permissionsList + [AccessCoarseLocation];
    }
    RequestedShape(permissionRequest);
  }

  /** Copies the list into a new array of the same length with an index loop. */
  method CopyToArray(permissionsList: seq<Permission>) returns (permissions: array<Permission>)
    ensures permissions.Length == |permissionsList|
    ensures permissions[..] == permissionsList
  {
    permissions := new Permission[|permissionsList|];
    var i := 0;
    while i < permissions.Length
      invariant 0 <= i <= permissions.Length == |permissionsList|
      invariant forall k :: 0 <= k < i ==> permissions[k] == permissionsList[k]
    {
      permissions[i] := permissionsList[i];
      i := i + 1;
    }
  }

  /** Scans the array and stops at the first permission the platform has not granted. */
  method CheckPermissions(permissions: array<Permission>, granted: set<Permission>) returns (ok: bool)
    ensures ok <==> AllGranted(permissions[..], granted)
  {
    var i := 0;
    while i < permissions.Length
      invariant 0 <= i <= permissions.Length
      invariant forall k :: 0 <= k < i ==> permissions[k] in granted
    {
      if permissions[i] !in granted {
        return false;
      }
      i := i + 1;
    }
    return true;
  }

  /** One call of ActivityCompat.requestPermissions: the activity, the names asked for and the request code. */
  datatype PermissionRequest = PermissionRequest(activity: object, permissions: seq<Permission>, requestCode: bv32)

  /** The utility's static state, with the permission requests it has issued to the platform. */
  class PermissionsUtility {
    /** The static `activity` field: the activity of the most recent call. */
    var activity: object?
    /** The requests issued to the platform, oldest first. */
    var requests: seq<PermissionRequest>

    constructor ()
      ensures activity == null && requests == []
    {
      activity := null;
      requests := [];
    }

    /** Returns whether every permission the mask asks for is granted; when one is not,
        asks the platform for all of them with request code ALL. */
    method GetPermissions(act: object, permissionRequest: bv32, granted: set<Permission>) returns (ok: bool)
      modifies this
      ensures activity == act
      ensures ok <==> AllGranted(Requested(permissionRequest), granted)
      ensures requests == if ok then old(requests)
                          else old(requests) + [PermissionRequest(act, Requested(permissionRequest), ALL)]
    {
      activity := act;
      var permissionsList := BuildPermissionList(permissionRequest);
      var permissions := CopyToArray(permissionsList);
      ok := CheckPermissions(permissions, granted);
      if ok {
        return;
      }
      requests := requests + [PermissionRequest(act, permissions[..], ALL)];
    }
  }
}
