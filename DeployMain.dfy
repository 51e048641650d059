/** The deployment logic of ramm-sui-deploy/src/main.rs once its network
    calls are replaced by their replies: finding the published package id,
    the two capability ids and which is which, and assembling the
    programmable transaction block (PTB) that populates the RAMM. */
module DeployMain {
  import opened Sui
  import DeployTypes

  type AssetConfig = DeployTypes.AssetConfig

  /** Name of the Move module holding the RAMM's creation API. */
  const RAMM_MODULE_NAME := "ramm"

  /** Gas budgets, in MIST, of the three transactions the tool sends. */
  const PACKAGE_PUBLICATION_GAS_BUDGET: u64 := 500_000_000
  const CREATE_RAMM_GAS_BUDGET: u64 := 100_000_000
  const RAMM_PTB_GAS_BUDGET: u64 := 100_000_000

  /** Struct names of the two capability objects the RAMM's creation mints. */
  const ADMIN_CAP_NAME := "RAMMAdminCap"
  const NEW_ASSET_CAP_NAME := "RAMMNewAssetCap"

  /** Why the program panics. */
  datatype PanicReason =
    | EffectsMissing                                // `expect` on a response without effects
    | NoImmutableObject                             // `expect` on no immutable created object
    | CapCountNotTwo                                // `assert!(cap_ids.len() == 2)`
    | ObjectDataMissing                             // `unwrap` of the queried object
    | ObjectTypeMissing                             // `unwrap` of its type
    | CapIsPackage                                  // `panic!` on `ObjectType::Package`
    | UnknownCapType                                // the `_` arm of the capability match
    | NoCoin                                        // `unwrap` of the first gas coin
    | AssetIndexOutOfBounds(index: nat, len: nat)   // `config.assets[ix]`

  /** How the program stops before finishing: a panic, or an error report
      followed by `return ExitCode::from(code)`. */
  datatype Failure = Panic(reason: PanicReason) | Exit(code: nat)

  // ---------------------------------------------------------------------------
  // Package id

  predicate IsImmutableRef(o: OwnedObjectRef) {
    o.owner.Immutable?
  }

  /** Index `i` holds the first immutable object of `created`. */
  ghost predicate FirstImmutableAt(created: seq<OwnedObjectRef>, i: int) {
    0 <= i < |created| && IsImmutableRef(created[i]) &&
    forall k :: 0 <= k < i ==> !IsImmutableRef(created[k])
  }

  /** The package id read from the publish transaction's effects: the id of
      the first created object that is immutable, in effects order. No
      effects, or no immutable object, is a panic. */
  function PackageId(effects: Option<TransactionEffects>): (r: Result<ObjectID, Failure>)
    ensures effects.None? ==> r == Err(Panic(EffectsMissing))
    ensures effects.Some? ==>
      (r.Ok? <==> exists i :: 0 <= i < |effects.value.created| && IsImmutableRef(effects.value.created[i]))
    ensures effects.Some? && r.Err? ==> r.error == Panic(NoImmutableObject)
    ensures r.Ok? ==>
      effects.Some? &&
      exists i :: FirstImmutableAt(effects.value.created, i) &&
        r.value == effects.value.created[i].reference.objectId
  {
    match effects
    case None => Err(Panic(EffectsMissing))
    case Some(e) =>
      var immutables := Filter(IsImmutableRef, e.created);
      FilterFirst(IsImmutableRef, e.created);
      if immutables == [] then Err(Panic(NoImmutableObject))
      else Ok(immutables[0].reference.objectId)
  }

  /** Immutable objects after the first do not change the package id. */
  lemma PackageIdIgnoresLaterImmutables(created: seq<OwnedObjectRef>, more: seq<OwnedObjectRef>)
    requires exists i :: 0 <= i < |created| && IsImmutableRef(created[i])
    ensures PackageId(Some(TransactionEffects(created + more))) == PackageId(Some(TransactionEffects(created)))
  {
    FilterAppend(IsImmutableRef, created, more);
    FilterFirst(IsImmutableRef, created);
  }

  // ---------------------------------------------------------------------------
  // Capability ids

  /** The filter `oor.owner == client_address`. */
  function OwnedByClient(client: SuiAddress): OwnedObjectRef -> bool {
    (o: OwnedObjectRef) => OwnedBy(o.owner, client)
  }

  function Ids(refs: seq<OwnedObjectRef>): seq<ObjectID> {
    seq(|refs|, k requires 0 <= k < |refs| => refs[k].reference.objectId)
  }

  /** The ids of the objects the RAMM creation gave to the client, in effects
      order. Missing effects panic, and so does any number of such objects
      other than two. Shared, immutable and object-owned objects, and objects
      of other addresses, are not counted. */
  function CapIds(effects: Option<TransactionEffects>, client: SuiAddress): (r: Result<seq<ObjectID>, Failure>)
    ensures effects.None? ==> r == Err(Panic(EffectsMissing))
    ensures effects.Some? ==>
      (r.Ok? <==> exists i, j :: OnlyAtPair(OwnedByClient(client), effects.value.created, i, j))
    ensures effects.Some? && r.Err? ==> r.error == Panic(CapCountNotTwo)
    ensures r.Ok? ==>
      effects.Some? &&
      exists i, j :: OnlyAtPair(OwnedByClient(client), effects.value.created, i, j) &&
        r.value == [effects.value.created[i].reference.objectId, effects.value.created[j].reference.objectId]
  {
    match effects
    case None => Err(Panic(EffectsMissing))
    case Some(e) =>
      var ids := Ids(Filter(OwnedByClient(client), e.created));
      FilterPair(OwnedByClient(client), e.created);
      if |ids| != 2 then Err(Panic(CapCountNotTwo))
      else Ok(ids)
  }

  // ---------------------------------------------------------------------------
  // Which capability is which

  /** What the type query on a capability object can return. */
  datatype MoveObjectType = MoveObjectType(name: string)
  datatype ObjectType = PackageType | Struct(moveType: MoveObjectType)
  datatype ObjectData = ObjectData(objectId: ObjectID, objectType: Option<ObjectType>)
  datatype ObjectResponse = ObjectResponse(data: Option<ObjectData>)

  /** The struct name of the queried object. A failed query reports and
      exits with code 1; a missing object or type, or a package instead of a
      struct, panics. */
  function CapTypeName(query: Result<ObjectResponse, string>): (r: Result<string, Failure>)
    ensures query.Err? ==> r == Err(Exit(1))
    ensures r.Ok? <==>
      query.Ok? && query.value.data.Some? && query.value.data.value.objectType.Some? &&
      query.value.data.value.objectType.value.Struct?
    ensures r.Ok? ==> r.value == query.value.data.value.objectType.value.moveType.name
    ensures query.Ok? && query.value.data.None? ==> r == Err(Panic(ObjectDataMissing))
    ensures query.Ok? && query.value.data.Some? && query.value.data.value.objectType.None? ==>
      r == Err(Panic(ObjectTypeMissing))
    ensures query.Ok? && query.value.data.Some? && query.value.data.value.objectType == Some(PackageType) ==>
      r == Err(Panic(CapIsPackage))
  {
    match query
    case Err(_) => Err(Exit(1))
    case Ok(response) =>
      match response.data
      case None => Err(Panic(ObjectDataMissing))
      case Some(data) =>
        match data.objectType
        case None => Err(Panic(ObjectTypeMissing))
        case Some(PackageType) => Err(Panic(CapIsPackage))
        case Some(Struct(t)) => Ok(t.name)
  }

  /** The creation step mints one capability of each kind: `typeOf` gives
      the struct name of each object on chain. */
  ghost predicate MintsOneOfEach(capIds: seq<ObjectID>, typeOf: ObjectID -> string) {
    |capIds| == 2 &&
    ((typeOf(capIds[0]) == ADMIN_CAP_NAME && typeOf(capIds[1]) == NEW_ASSET_CAP_NAME) ||
     (typeOf(capIds[0]) == NEW_ASSET_CAP_NAME && typeOf(capIds[1]) == ADMIN_CAP_NAME))
  }

  /** `(admin, new asset)` names each capability by its real kind. */
  ghost predicate RolesRight(caps: (ObjectID, ObjectID), typeOf: ObjectID -> string) {
    typeOf(caps.0) == ADMIN_CAP_NAME && typeOf(caps.1) == NEW_ASSET_CAP_NAME
  }

  /** The assignment as written: both match arms are binding patterns, so the
      first always matches and the queried name plays no part. */
  function AssignCapsAsWritten(capIds: seq<ObjectID>, typeName: string): (r: (ObjectID, ObjectID))
    requires |capIds| == 2
    ensures r.0 == capIds[0] && r.1 == capIds[1]
  {
    (capIds[0], capIds[1])
  }

  /** Whenever the first capability listed is the new-asset one, the written
      assignment swaps the two roles. */
  lemma AsWrittenSwapsRoles(capIds: seq<ObjectID>, typeOf: ObjectID -> string)
    requires MintsOneOfEach(capIds, typeOf) && typeOf(capIds[0]) == NEW_ASSET_CAP_NAME
    ensures !RolesRight(AssignCapsAsWritten(capIds, typeOf(capIds[0])), typeOf)
  {
  }

  /** A concrete case: ids "0x1" (a new-asset cap) and "0x2" (the admin cap). */
  lemma AsWrittenSwapsRolesExample()
    ensures var ids := [ObjectID("0x1"), ObjectID("0x2")];
      var typeOf := (id: ObjectID) => if id == ObjectID("0x1") then NEW_ASSET_CAP_NAME else ADMIN_CAP_NAME;
      MintsOneOfEach(ids, typeOf) && AssignCapsAsWritten(ids, NEW_ASSET_CAP_NAME).0 == ObjectID("0x1") &&
      !RolesRight(AssignCapsAsWritten(ids, NEW_ASSET_CAP_NAME), typeOf)
  {
  }

  /** The assignment the comments describe: compare the queried name with
      the two capability names and infer the other object's kind; any other
      name is a panic. */
  function AssignCaps(capIds: seq<ObjectID>, typeName: string): (r: Result<(ObjectID, ObjectID), Failure>)
    requires |capIds| == 2
    ensures r.Ok? <==> typeName == ADMIN_CAP_NAME || typeName == NEW_ASSET_CAP_NAME
    ensures r.Err? ==> r.error == Panic(UnknownCapType)
    ensures r.Ok? ==> r.value == (capIds[0], capIds[1]) || r.value == (capIds[1], capIds[0])
    ensures r.Ok? && capIds[0] != capIds[1] ==> (r.value.0 == capIds[0] <==> typeName == ADMIN_CAP_NAME)
  {
    if typeName == ADMIN_CAP_NAME then Ok((capIds[0], capIds[1]))
    else if typeName == NEW_ASSET_CAP_NAME then Ok((capIds[1], capIds[0]))
    else Err(Panic(UnknownCapType))
  }

  /** Querying the first capability's type and inferring the second names
      both capabilities by their real kinds. */
  lemma AssignCapsRolesRight(capIds: seq<ObjectID>, typeOf: ObjectID -> string)
    requires MintsOneOfEach(capIds, typeOf)
    ensures AssignCaps(capIds, typeOf(capIds[0])).Ok?
    ensures RolesRight(AssignCaps(capIds, typeOf(capIds[0])).value, typeOf)
  {
  }

  /** The two capability names give swapped assignments. */
  lemma AssignCapsSwaps(capIds: seq<ObjectID>)
    requires |capIds| == 2
    ensures AssignCaps(capIds, ADMIN_CAP_NAME) == Ok((capIds[0], capIds[1]))
    ensures AssignCaps(capIds, NEW_ASSET_CAP_NAME) == Ok((capIds[1], capIds[0]))
  {
  }

  // ---------------------------------------------------------------------------
  // The programmable transaction block

  /** A pure (by-value) input; its BCS encoding is not modelled. */
  datatype PureValue = AddressValue(address: SuiAddress) | U64Value(n: u64) | U8Value(b: u8)

  datatype CallArg = Pure(value: PureValue)

  /** A command argument: a result of an earlier command, or a pure input.
      The input's slot number is assigned inside the SDK and is not
      modelled. */
  datatype Argument = NestedResult(command: nat, index: nat) | PureInput(value: PureValue)

  datatype Command = MoveCall(
    package: ObjectID,
    moduleName: string,
    functionName: string,
    typeArguments: seq<TypeTag>,
    arguments: seq<Argument>)

  datatype ProgrammableTransaction = ProgrammableTransaction(commands: seq<Command>)

  /** `ptb.pure(value).unwrap()`. */
  function PureArg(v: PureValue): Argument {
    PureInput(v)
  }

  function CallArgsToArguments(args: seq<CallArg>): seq<Argument> {
    seq(|args|, k requires 0 <= k < |args| => PureInput(args[k].value))
  }

  /** The SDK's `ProgrammableTransactionBuilder`, as the list of commands it
      has been given. */
  class ProgrammableTransactionBuilder {
    var commands: seq<Command>

    constructor ()
      ensures commands == []
    {
      commands := [];
    }

    /** `move_call`: appends a call whose arguments are the given call
        arguments turned into inputs. */
    method MoveCall(
      package: ObjectID, moduleName: string, functionName: string,
      typeArguments: seq<TypeTag>, callArgs: seq<CallArg>)
      modifies this
      ensures commands ==
        old(commands) + [Command.MoveCall(package, moduleName, functionName, typeArguments, CallArgsToArguments(callArgs))]
    {
      commands := commands + [Command.MoveCall(package, moduleName, functionName, typeArguments, CallArgsToArguments(callArgs))];
    }

    /** `programmable_move_call`: appends a call with the given arguments. */
    method ProgrammableMoveCall(
      package: ObjectID, moduleName: string, functionName: string,
      typeArguments: seq<TypeTag>, arguments: seq<Argument>)
      modifies this
      ensures commands == old(commands) + [Command.MoveCall(package, moduleName, functionName, typeArguments, arguments)]
    {
      commands := commands + [Command.MoveCall(package, moduleName, functionName, typeArguments, arguments)];
    }

    /** `finish`. */
    method Finish() returns (pt: ProgrammableTransaction)
      ensures pt.commands == commands
    {
      pt := ProgrammableTransaction(commands);
    }
  }

  /** Command 0: `ramm::new_ramm_internal(fee address)`. */
  function NewRammInternalCall(pkg: ObjectID, fee: SuiAddress): Command {
    MoveCall(pkg, "ramm", "new_ramm_internal", [], [PureInput(AddressValue(fee))])
  }

  /** Command 1: `ramm::new_ramm` on the three results of command 0. */
  function NewRammCall(pkg: ObjectID): Command {
    MoveCall(pkg, "ramm", "new_ramm", [], [NestedResult(0, 0), NestedResult(0, 1), NestedResult(0, 2)])
  }

  /** The `add_asset_to_ramm` call of one asset. */
  function AddAssetCall(pkg: ObjectID, asset: AssetConfig, tag: TypeTag): Command {
    MoveCall(pkg, RAMM_MODULE_NAME, "add_asset_to_ramm", [tag],
      [ NestedResult(0, 0),
        PureInput(AddressValue(asset.aggregatorAddress)),
        PureInput(U64Value(asset.minimumTradeAmount)),
        PureInput(U8Value(asset.decimalPlaces)),
        NestedResult(0, 1),
        NestedResult(0, 2) ])
  }

  /** The type tags of the first `n` assets can all be built. */
  ghost predicate TagsOk(assets: seq<AssetConfig>, n: nat, typeTagOf: AssetConfig -> Result<TypeTag, string>) {
    n <= |assets| && forall i :: 0 <= i < n ==> typeTagOf(assets[i]).Ok?
  }

  /** The shape of the finished PTB: the two setup calls, then one
      `add_asset_to_ramm` call per asset index below `n`, and nothing else. */
  ghost predicate RammPtbShape(
    cmds: seq<Command>, pkg: ObjectID, fee: SuiAddress,
    assets: seq<AssetConfig>, n: nat, typeTagOf: AssetConfig -> Result<TypeTag, string>)
  {
    TagsOk(assets, n, typeTagOf) &&
    |cmds| == 2 + n &&
    cmds[0] == NewRammInternalCall(pkg, fee) &&
    cmds[1] == NewRammCall(pkg) &&
    forall i :: 0 <= i < n ==> cmds[2 + i] == AddAssetCall(pkg, assets[i], typeTagOf(assets[i]).value)
  }

  /** The PTB built in main.rs: set the RAMM up, then add the first
      `asset_count` assets of the config in order. The loop stops at the
      first failure: an index past the end of the asset list panics, and a
      type tag that cannot be built exits with code 1. */
  method BuildRammPtb(
    pkg: ObjectID, fee: SuiAddress, assetCount: u8, assets: seq<AssetConfig>,
    typeTagOf: AssetConfig -> Result<TypeTag, string>)
    returns (r: Result<ProgrammableTransaction, Failure>)
    ensures r.Ok? <==> TagsOk(assets, assetCount, typeTagOf)
    ensures r.Ok? ==> RammPtbShape(r.value.commands, pkg, fee, assets, assetCount, typeTagOf)
    ensures r == Err(Exit(1)) <==>
      exists i :: 0 <= i < assetCount && i < |assets| && typeTagOf(assets[i]).Err?
    ensures r == Err(Panic(AssetIndexOutOfBounds(|assets|, |assets|))) <==>
      assetCount > |assets| && TagsOk(assets, |assets|, typeTagOf)
  {
    var ptb := new ProgrammableTransactionBuilder();
    // The fee address is also registered once as a standalone input that no
    // command uses; without input slots in the model it leaves no trace.
    var _ := PureArg(AddressValue(fee));
    ptb.MoveCall(pkg, "ramm", "new_ramm_internal", [], [Pure(AddressValue(fee))]);
    ptb.ProgrammableMoveCall(pkg, "ramm", "new_ramm", [],
      [NestedResult(0, 0), NestedResult(0, 1), NestedResult(0, 2)]);
    var ix := 0;
    while ix < assetCount
      invariant 0 <= ix <= assetCount
      invariant TagsOk(assets, ix, typeTagOf)
      invariant |ptb.commands| == 2 + ix
      invariant ptb.commands[0] == NewRammInternalCall(pkg, fee) && ptb.commands[1] == NewRammCall(pkg)
      invariant forall i :: 0 <= i < ix ==>
        ptb.commands[2 + i] == AddAssetCall(pkg, assets[i], typeTagOf(assets[i]).value)
    {
      if ix >= |assets| {
        return Err(Panic(AssetIndexOutOfBounds(ix, |assets|)));
      }
      var asset := assets[ix];
      var args := [
        NestedResult(0, 0),
        PureArg(AddressValue(asset.aggregatorAddress)),
        PureArg(U64Value(asset.minimumTradeAmount)),
        PureArg(U8Value(asset.decimalPlaces)),
        NestedResult(0, 1),
        NestedResult(0, 2)
      ];
      var tag := typeTagOf(asset);
      if tag.Err? {
        return Err(Exit(1));
      }
      ptb.ProgrammableMoveCall(pkg, RAMM_MODULE_NAME, "add_asset_to_ramm", [tag.value], args);
      ix := ix + 1;
    }
    var pt := ptb.Finish();
    r := Ok(pt);
  }

  /** How many commands call the function `name`. */
  function CallsTo(cmds: seq<Command>, name: string): nat {
    if cmds == [] then 0
    else (if cmds[0].functionName == name then 1 else 0) + CallsTo(cmds[1..], name)
  }

  lemma {:induction false} CallsToNone(cmds: seq<Command>, name: string)
    requires forall k :: 0 <= k < |cmds| ==> cmds[k].functionName != name
    ensures CallsTo(cmds, name) == 0
  {
    if cmds != [] {
      CallsToNone(cmds[1..], name);
    }
  }

  lemma {:induction false} CallsToAll(cmds: seq<Command>, name: string)
    requires forall k :: 0 <= k < |cmds| ==> cmds[k].functionName == name
    ensures CallsTo(cmds, name) == |cmds|
  {
    if cmds != [] {
      CallsToAll(cmds[1..], name);
    }
  }

  lemma {:induction false} CallsToAppend(a: seq<Command>, b: seq<Command>, name: string)
    ensures CallsTo(a + b, name) == CallsTo(a, name) + CallsTo(b, name)
  {
    if a == [] {
      assert a + b == b;
    } else {
      assert (a + b)[1..] == a[1..] + b;
      CallsToAppend(a[1..], b, name);
    }
  }

  /** A PTB of that shape holds `2 + n` commands: exactly one
      `new_ramm_internal`, exactly one `new_ramm`, exactly `n`
      `add_asset_to_ramm` calls, and no `initialize_ramm` call. */
  lemma RammPtbCounts(
    cmds: seq<Command>, pkg: ObjectID, fee: SuiAddress,
    assets: seq<AssetConfig>, n: nat, typeTagOf: AssetConfig -> Result<TypeTag, string>)
    requires RammPtbShape(cmds, pkg, fee, assets, n, typeTagOf)
    ensures CallsTo(cmds, "new_ramm_internal") == 1
    ensures CallsTo(cmds, "new_ramm") == 1
    ensures CallsTo(cmds, "add_asset_to_ramm") == n
    ensures CallsTo(cmds, "initialize_ramm") == 0
  {
    var adds := cmds[2..];
    assert cmds == [cmds[0], cmds[1]] + adds;
    RammPtbAddsOnly(cmds, pkg, fee, assets, n, typeTagOf);
    CallsToAll(adds, "add_asset_to_ramm");
    CallsToNone(adds, "new_ramm_internal");
    CallsToNone(adds, "new_ramm");
    CallsToNone(adds, "initialize_ramm");
    CallsToAppend([cmds[0], cmds[1]], adds, "new_ramm_internal");
    CallsToAppend([cmds[0], cmds[1]], adds, "new_ramm");
    CallsToAppend([cmds[0], cmds[1]], adds, "add_asset_to_ramm");
    CallsToAppend([cmds[0], cmds[1]], adds, "initialize_ramm");
  }

  /** After the two setup calls, every command is an `add_asset_to_ramm`
      call; every command targets the `ramm` module of the package. */
  lemma RammPtbAddsOnly(
    cmds: seq<Command>, pkg: ObjectID, fee: SuiAddress,
    assets: seq<AssetConfig>, n: nat, typeTagOf: AssetConfig -> Result<TypeTag, string>)
    requires RammPtbShape(cmds, pkg, fee, assets, n, typeTagOf)
    ensures forall k :: 2 <= k < |cmds| ==> cmds[k].functionName == "add_asset_to_ramm"
    ensures forall k :: 0 <= k < |cmds| ==> cmds[k].package == pkg && cmds[k].moduleName == RAMM_MODULE_NAME
  {
    forall k | 2 <= k < |cmds|
      ensures cmds[k].functionName == "add_asset_to_ramm" && cmds[k].package == pkg
      ensures cmds[k].moduleName == RAMM_MODULE_NAME
    {
      assert cmds[2 + (k - 2)] == AddAssetCall(pkg, assets[k - 2], typeTagOf(assets[k - 2]).value);
    }
  }

  /** Every `add_asset_to_ramm` call takes the RAMM and its two capabilities
      from command 0's results and one type argument, and the `i`-th one
      carries the `i`-th asset's aggregator, minimum trade amount and
      decimal places. */
  lemma RammPtbAddAssetArguments(
    cmds: seq<Command>, pkg: ObjectID, fee: SuiAddress,
    assets: seq<AssetConfig>, n: nat, typeTagOf: AssetConfig -> Result<TypeTag, string>, i: nat)
    requires RammPtbShape(cmds, pkg, fee, assets, n, typeTagOf) && i < n
    ensures var c := cmds[2 + i];
      |c.typeArguments| == 1 && |c.arguments| == 6 &&
      c.arguments[0] == NestedResult(0, 0) && c.arguments[4] == NestedResult(0, 1) &&
      c.arguments[5] == NestedResult(0, 2) &&
      c.arguments[1] == PureInput(AddressValue(assets[i].aggregatorAddress)) &&
      c.arguments[2] == PureInput(U64Value(assets[i].minimumTradeAmount)) &&
      c.arguments[3] == PureInput(U8Value(assets[i].decimalPlaces))
  {
    assert cmds[2 + i] == AddAssetCall(pkg, assets[i], typeTagOf(assets[i]).value);
  }

  // ---------------------------------------------------------------------------
  // The final transaction

  /** The programmable transaction's data as handed to signing. */
  datatype TransactionData = TransactionData(
    sender: SuiAddress,
    gasPayment: seq<ObjectRef>,
    pt: ProgrammableTransaction,
    gasBudget: u64,
    gasPrice: u64)

  /** main.rs from fetching the gas coins to building the transaction data:
      a failed coin query exits with code 1, an empty coin list panics, a
      failed gas price query exits with code 1; then the PTB is built and
      paid for with the first coin under the fixed PTB gas budget. */
  method BuildRammTransaction(
    client: SuiAddress, coins: Result<seq<ObjectRef>, string>, gasPrice: Result<u64, string>,
    pkg: ObjectID, fee: SuiAddress, assetCount: u8, assets: seq<AssetConfig>,
    typeTagOf: AssetConfig -> Result<TypeTag, string>)
    returns (r: Result<TransactionData, Failure>)
    ensures coins.Err? ==> r == Err(Exit(1))
    ensures coins == Ok([]) ==> r == Err(Panic(NoCoin))
    ensures coins.Ok? && coins.value != [] && gasPrice.Err? ==> r == Err(Exit(1))
    ensures r.Ok? <==>
      coins.Ok? && coins.value != [] && gasPrice.Ok? && TagsOk(assets, assetCount, typeTagOf)
    ensures coins.Ok? && coins.value != [] && gasPrice.Ok? ==>
      (r == Err(Exit(1)) <==> exists i :: 0 <= i < assetCount && i < |assets| && typeTagOf(assets[i]).Err?) &&
      (r == Err(Panic(AssetIndexOutOfBounds(|assets|, |assets|))) <==>
        assetCount > |assets| && TagsOk(assets, |assets|, typeTagOf))
    ensures r.Ok? ==>
      r.value.sender == client && r.value.gasPayment == [coins.value[0]] &&
      r.value.gasBudget == RAMM_PTB_GAS_BUDGET && r.value.gasPrice == gasPrice.value &&
      RammPtbShape(r.value.pt.commands, pkg, fee, assets, assetCount, typeTagOf)
  {
    if coins.Err? {
      return Err(Exit(1));
    }
    if coins.value == [] {
      return Err(Panic(NoCoin));
    }
    var coin := coins.value[0];
    if gasPrice.Err? {
      return Err(Exit(1));
    }
    var pt := BuildRammPtb(pkg, fee, assetCount, assets, typeTagOf);
    if pt.Err? {
      return Err(pt.error);
    }
    r := Ok(TransactionData(client, [coin], pt.value, RAMM_PTB_GAS_BUDGET, gasPrice.value));
  }
  // ---------------------------------------------------------------------------
  // The whole run

  /** Which capability assignment a run uses: the match as written in
      main.rs, or the comparison it evidently intends. */
  datatype CapAssignment = AsWritten | Corrected

  function AssignCapsBy(mode: CapAssignment, capIds: seq<ObjectID>, typeName: string)
    : (r: Result<(ObjectID, ObjectID), Failure>)
    requires |capIds| == 2
    ensures mode == AsWritten ==> r == Ok((capIds[0], capIds[1]))
    ensures mode == Corrected ==> r == AssignCaps(capIds, typeName)
  {
    match mode
    case AsWritten => Ok(AssignCapsAsWritten(capIds, typeName))
    case Corrected => AssignCaps(capIds, typeName)
  }

  /** The capability step of main.rs: read the creation's effects, keep the
      client's two objects, query the type of the first and assign the
      roles. A failed creation exits with code 1; each later step's failure
      is passed on unchanged. */
  function ResolveCaps(
    mode: CapAssignment, client: SuiAddress,
    creation: Result<Option<TransactionEffects>, string>,
    queryObject: ObjectID -> Result<ObjectResponse, string>)
    : (r: Result<(ObjectID, ObjectID), Failure>)
    ensures creation.Err? ==> r == Err(Exit(1))
    ensures creation.Ok? && CapIds(creation.value, client).Err? ==>
      r == Err(CapIds(creation.value, client).error)
    ensures creation.Ok? && CapIds(creation.value, client).Ok? ==>
      var ids := CapIds(creation.value, client).value;
      var name := CapTypeName(queryObject(ids[0]));
      (name.Err? ==> r == Err(name.error)) &&
      (name.Ok? ==> r == AssignCapsBy(mode, ids, name.value))
  {
    match creation
    case Err(_) => Err(Exit(1))
    case Ok(effects) =>
      match CapIds(effects, client)
      case Err(e) => Err(e)
      case Ok(ids) =>
        match CapTypeName(queryObject(ids[0]))
        case Err(e) => Err(e)
        case Ok(name) => AssignCapsBy(mode, ids, name)
  }

  /** The node reports each object's true struct name. */
  ghost predicate TruthfulQueries(queryObject: ObjectID -> Result<ObjectResponse, string>, typeOf: ObjectID -> string) {
    forall id :: queryObject(id) == Ok(ObjectResponse(Some(ObjectData(id, Some(Struct(MoveObjectType(typeOf(id))))))))
  }

  /** With truthful replies and one capability of each kind minted for the
      client, the corrected step always succeeds and names both capabilities
      by their real kinds. */
  lemma ResolveCapsCorrectedRolesRight(
    client: SuiAddress, creation: Result<Option<TransactionEffects>, string>,
    queryObject: ObjectID -> Result<ObjectResponse, string>, typeOf: ObjectID -> string)
    requires creation.Ok? && CapIds(creation.value, client).Ok?
    requires MintsOneOfEach(CapIds(creation.value, client).value, typeOf)
    requires TruthfulQueries(queryObject, typeOf)
    ensures ResolveCaps(Corrected, client, creation, queryObject).Ok?
    ensures RolesRight(ResolveCaps(Corrected, client, creation, queryObject).value, typeOf)
  {
  }

  /** Under the same conditions the step as written names both capabilities
      wrongly whenever the new-asset one is listed first. */
  lemma ResolveCapsAsWrittenSwaps(
    client: SuiAddress, creation: Result<Option<TransactionEffects>, string>,
    queryObject: ObjectID -> Result<ObjectResponse, string>, typeOf: ObjectID -> string)
    requires creation.Ok? && CapIds(creation.value, client).Ok?
    requires MintsOneOfEach(CapIds(creation.value, client).value, typeOf)
    requires TruthfulQueries(queryObject, typeOf)
    requires typeOf(CapIds(creation.value, client).value[0]) == NEW_ASSET_CAP_NAME
    ensures ResolveCaps(AsWritten, client, creation, queryObject).Ok?
    ensures !RolesRight(ResolveCaps(AsWritten, client, creation, queryObject).value, typeOf)
  {
  }

  /** A transaction built by the SDK's transaction builder, by the fields the
      tool chooses (compiled modules, dependencies and the gas object the
      node picks are not modelled). */
  datatype TxRequest =
    | PublishTx(sender: SuiAddress, gasBudget: u64)
    | CallTx(
        sender: SuiAddress, package: ObjectID, moduleName: string, functionName: string,
        typeArguments: seq<TypeTag>, jsonArguments: seq<string>, gasBudget: u64)

  /** What the network answers, in the order the tool asks: the effects of
      the publish and of the RAMM creation (or an execution error), the
      object query, the gas coins and the reference gas price. */
  datatype Replies = Replies(
    publish: Result<Option<TransactionEffects>, string>,
    creation: Result<Option<TransactionEffects>, string>,
    queryObject: ObjectID -> Result<ObjectResponse, string>,
    coins: Result<seq<ObjectRef>, string>,
    gasPrice: Result<u64, string>)

  /** Everything the run decides. */
  datatype Deployment = Deployment(
    publish: TxRequest,
    packageId: ObjectID,
    createRamm: TxRequest,
    adminCap: ObjectID,
    newAssetCap: ObjectID,
    populate: TransactionData)

  /** main.rs from publishing the package to the data of the PTB that
      populates the RAMM, with the capability assignment chosen by `mode`
      (`AsWritten` is the program as it stands). Each step runs only when
      the ones before it succeeded; the first failure ends the run. */
  method Deploy(
    mode: CapAssignment, client: SuiAddress, fee: SuiAddress, assetCount: u8, assets: seq<AssetConfig>,
    typeTagOf: AssetConfig -> Result<TypeTag, string>, replies: Replies)
    returns (r: Result<Deployment, Failure>)
    ensures r.Ok? <==>
      replies.publish.Ok? && PackageId(replies.publish.value).Ok? &&
      ResolveCaps(mode, client, replies.creation, replies.queryObject).Ok? &&
      replies.coins.Ok? && replies.coins.value != [] && replies.gasPrice.Ok? &&
      TagsOk(assets, assetCount, typeTagOf)
    // Failures, in the order the steps run.
    ensures replies.publish.Err? ==> r == Err(Exit(1))
    ensures replies.publish.Ok? && PackageId(replies.publish.value).Err? ==>
      r == Err(PackageId(replies.publish.value).error)
    ensures (replies.publish.Ok? && PackageId(replies.publish.value).Ok? &&
             ResolveCaps(mode, client, replies.creation, replies.queryObject).Err?) ==>
      r == Err(ResolveCaps(mode, client, replies.creation, replies.queryObject).error)
    ensures (replies.publish.Ok? && PackageId(replies.publish.value).Ok? &&
             ResolveCaps(mode, client, replies.creation, replies.queryObject).Ok?) ==>
      (replies.coins.Err? ==> r == Err(Exit(1))) &&
      (replies.coins == Ok([]) ==> r == Err(Panic(NoCoin))) &&
      (replies.coins.Ok? && replies.coins.value != [] && replies.gasPrice.Err? ==> r == Err(Exit(1))) &&
      (replies.coins.Ok? && replies.coins.value != [] && replies.gasPrice.Ok? ==>
        (r == Err(Exit(1)) <==> exists i :: 0 <= i < assetCount && i < |assets| && typeTagOf(assets[i]).Err?) &&
        (r == Err(Panic(AssetIndexOutOfBounds(|assets|, |assets|))) <==>
          assetCount > |assets| && TagsOk(assets, |assets|, typeTagOf)))
    // What a successful run builds.
    ensures r.Ok? ==>
      r.value.publish == PublishTx(client, PACKAGE_PUBLICATION_GAS_BUDGET) &&
      PackageId(replies.publish.value) == Ok(r.value.packageId) &&
      r.value.createRamm ==
        CallTx(client, r.value.packageId, RAMM_MODULE_NAME, "new_ramm", [], [fee.text], CREATE_RAMM_GAS_BUDGET) &&
      ResolveCaps(mode, client, replies.creation, replies.queryObject) == Ok((r.value.adminCap, r.value.newAssetCap))
    ensures r.Ok? ==>
      r.value.populate.sender == client && r.value.populate.gasPayment == [replies.coins.value[0]] &&
      r.value.populate.gasBudget == RAMM_PTB_GAS_BUDGET && r.value.populate.gasPrice == replies.gasPrice.value &&
      RammPtbShape(r.value.populate.pt.commands, r.value.packageId, fee, assets, assetCount, typeTagOf)
  {
    if replies.publish.Err? {
      return Err(Exit(1));
    }
    var publish := PublishTx(client, PACKAGE_PUBLICATION_GAS_BUDGET);
    var pkg := PackageId(replies.publish.value);
    if pkg.Err? {
      return Err(pkg.error);
    }
    var createRamm := CallTx(client, pkg.value, RAMM_MODULE_NAME, "new_ramm", [], [fee.text], CREATE_RAMM_GAS_BUDGET);
    var caps := ResolveCaps(mode, client, replies.creation, replies.queryObject);
    if caps.Err? {
      return Err(caps.error);
    }
    var tx := BuildRammTransaction(client, replies.coins, replies.gasPrice, pkg.value, fee, assetCount, assets, typeTagOf);
    if tx.Err? {
      return Err(tx.error);
    }
    r := Ok(Deployment(publish, pkg.value, createRamm, caps.value.0, caps.value.1, tx.value));
  }
}
