/** The deployment config of ramm-sui-deploy/src/types.rs: its validation and
    the decoding of the package-source field. */
module DeployTypes {
  import opened Sui

  /** Lowest number of decimal places an asset may declare. */
  const ASSET_MIN_DECIMAL_PLACES: u8 := 4

  /** The network environments a config may target. */
  const TARGET_ENVS: seq<string> := ["active", "testnet", "mainnet"]

  /** One asset to add to the RAMM. */
  datatype AssetConfig = AssetConfig(
    assetType: TypeTag,
    aggregatorAddress: SuiAddress,
    minimumTradeAmount: u64,
    decimalPlaces: u8)

  /** Where the RAMM package comes from: an id already on chain, or a path to
      a Move package to publish. */
  datatype RAMMPkgAddrSrc =
    | FromTomlConfig(id: ObjectID)
    | FromPkgPublication(path: string)

  datatype RAMMDeploymentConfig = RAMMDeploymentConfig(
    targetEnv: string,
    rammPkgAddrOrPath: RAMMPkgAddrSrc,
    assetCount: u8,
    feeCollectionAddress: SuiAddress,
    assets: seq<AssetConfig>)

  // ---------------------------------------------------------------------------
  // Validation

  /** `assets.iter().all(|asset| asset.decimal_places >= ASSET_MIN_DECIMAL_PLACES)`,
      scanning from the front and stopping at the first failure. */
  predicate AllDecimalsOk(assets: seq<AssetConfig>) {
    assets == [] ||
    (assets[0].decimalPlaces >= ASSET_MIN_DECIMAL_PLACES && AllDecimalsOk(assets[1..]))
  }

  /** `validate_ramm_cfg`. The count is compared after `assets.len() as u8`,
      so only modulo 256. */
  predicate ValidateRammCfg(cfg: RAMMDeploymentConfig) {
    cfg.assetCount == AsU8(|cfg.assets|) && cfg.assetCount > 0 &&
    cfg.targetEnv in TARGET_ENVS &&
    AllDecimalsOk(cfg.assets)
  }

  /** The scan accepts exactly when every asset meets the minimum. */
  lemma {:induction false} AllDecimalsOkIff(assets: seq<AssetConfig>)
    ensures AllDecimalsOk(assets) <==>
      forall i :: 0 <= i < |assets| ==> assets[i].decimalPlaces >= ASSET_MIN_DECIMAL_PLACES
  {
    if assets != [] {
      AllDecimalsOkIff(assets[1..]);
      assert forall i :: 1 <= i < |assets| ==> assets[i] == assets[1..][i - 1];
    }
  }

  /** A config validates exactly when the count matches the list length modulo
      256 and is non-zero, the environment is literally one of "active",
      "testnet", "mainnet", and every asset has at least 4 decimal places. */
  lemma ValidateRammCfgIff(cfg: RAMMDeploymentConfig)
    ensures ValidateRammCfg(cfg) <==>
      cfg.assetCount == |cfg.assets| % 256 && cfg.assetCount > 0 &&
      (cfg.targetEnv == "active" || cfg.targetEnv == "testnet" || cfg.targetEnv == "mainnet") &&
      forall i :: 0 <= i < |cfg.assets| ==> cfg.assets[i].decimalPlaces >= 4
  {
    AllDecimalsOkIff(cfg.assets);
  }

  /** An empty asset list never validates. */
  lemma EmptyAssetsInvalid(cfg: RAMMDeploymentConfig)
    requires cfg.assets == []
    ensures !ValidateRammCfg(cfg)
  {
  }

  /** One asset below the decimal minimum, anywhere in the list, rejects the
      whole config. */
  lemma LowDecimalsInvalid(cfg: RAMMDeploymentConfig, i: nat)
    requires i < |cfg.assets| && cfg.assets[i].decimalPlaces < ASSET_MIN_DECIMAL_PLACES
    ensures !ValidateRammCfg(cfg)
  {
    AllDecimalsOkIff(cfg.assets);
  }

  /** The environment is matched by exact string equality: any other name is
      rejected, whatever the rest of the config. */
  lemma UnknownEnvInvalid(cfg: RAMMDeploymentConfig)
    requires cfg.targetEnv != "active" && cfg.targetEnv != "testnet" && cfg.targetEnv != "mainnet"
    ensures !ValidateRammCfg(cfg)
  {
  }

  /** A config with 257 assets that declares one asset passes validation,
      although the declared count is not the list length. */
  lemma CountCheckIsModulo256(asset: AssetConfig)
    requires asset.decimalPlaces >= ASSET_MIN_DECIMAL_PLACES
    ensures var cfg := RAMMDeploymentConfig("testnet", FromPkgPublication("./ramm-sui"), 1,
                                            asset.aggregatorAddress, seq(257, _ => asset));
      ValidateRammCfg(cfg) && cfg.assetCount != |cfg.assets|
  {
    var assets := seq(257, _ => asset);
    AllDecimalsOkIff(assets);
  }

  /** Validation with the count compared to the exact list length, as the
      field's stated invariant ("must always match `assets.len()`") asks. */
  predicate ValidateRammCfgExact(cfg: RAMMDeploymentConfig) {
    cfg.assetCount == |cfg.assets| && cfg.assetCount > 0 &&
    cfg.targetEnv in TARGET_ENVS &&
    AllDecimalsOk(cfg.assets)
  }

  /** The exact check accepts precisely the configs the written check accepts
      that list fewer than 256 assets, and every config it accepts has its
      count equal to its number of assets. */
  lemma ValidateRammCfgExactIff(cfg: RAMMDeploymentConfig)
    ensures ValidateRammCfgExact(cfg) <==> ValidateRammCfg(cfg) && |cfg.assets| < 256
    ensures ValidateRammCfgExact(cfg) ==> cfg.assetCount == |cfg.assets|
  {
  }

  // ---------------------------------------------------------------------------
  // Package source

  /** A deserialisation error from the config reader. */
  datatype DeError = DeError(message: string)

  /** `de_addr_or_path`: read the field as a string (failing if it is not
      one), try to parse it as an `ObjectID` with `parseObjectId`, and
      otherwise take the same text as a path (`PathBuf::from_str` cannot
      fail). */
  function DeAddrOrPath(raw: Result<string, DeError>, parseObjectId: string -> Option<ObjectID>)
    : (r: Result<RAMMPkgAddrSrc, DeError>)
    ensures raw.Err? <==> r.Err?
    ensures raw.Err? ==> r.error == raw.error
  {
    match raw
    case Err(e) => Err(e)
    case Ok(s) =>
      match parseObjectId(s)
      case Some(id) => Ok(FromTomlConfig(id))
      case None => Ok(FromPkgPublication(s))
  }

  /** A string that parses as an id becomes that id; any other string becomes
      a path with the same text. A valid id is never taken for a path. */
  lemma DeAddrOrPathCases(s: string, parseObjectId: string -> Option<ObjectID>)
    ensures parseObjectId(s).Some? ==>
      DeAddrOrPath(Ok(s), parseObjectId) == Ok(FromTomlConfig(parseObjectId(s).value))
    ensures parseObjectId(s).None? ==>
      DeAddrOrPath(Ok(s), parseObjectId) == Ok(FromPkgPublication(s))
    ensures DeAddrOrPath(Ok(s), parseObjectId).value.FromPkgPublication? <==> parseObjectId(s).None?
  {
  }

  /** The text a package source is written as in the config. */
  function SourceText(src: RAMMPkgAddrSrc): string {
    match src
    case FromTomlConfig(id) => id.text
    case FromPkgPublication(path) => path
  }

  /** Decoding inverts writing: a source written out and read back is the
      same source, provided the id parser reads an id's own text back as
      that id and does not read the path as an id. */
  lemma DeAddrOrPathRoundTrip(src: RAMMPkgAddrSrc, parseObjectId: string -> Option<ObjectID>)
    requires src.FromTomlConfig? ==> parseObjectId(src.id.text) == Some(src.id)
    requires src.FromPkgPublication? ==> parseObjectId(src.path) == None
    ensures DeAddrOrPath(Ok(SourceText(src)), parseObjectId) == Ok(src)
  {
  }
}
