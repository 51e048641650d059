/** ramm-sui-deploy/src/lib.rs: building the deployment request from the
    command line and the TOML config, and the plain-text rendering of the
    config shown to the operator. */
module DeployLib {
  import opened Sui
  import opened Text
  import DeployTypes

  type AssetConfig = DeployTypes.AssetConfig

  /** The tool's error kinds (ramm-sui-deploy/src/error.rs); the payloads of
      the I/O, command-line and TOML errors are kept as their messages. */
  datatype RAMMDeploymentError =
    | NoPkgAddrAndNoPublishFlag
    | TOMLFileReadError(ioError: string)
    | CLIError(clapError: string)
    | NoTOMLConfigProvided
    | TOMLParseError(tomlError: string)

  datatype RAMMDeploymentConfig = RAMMDeploymentConfig(
    targetEnv: string,
    pkgAddress: Option<AccountAddress>,
    assetCount: u8,
    feeCollectionAddress: SuiAddress,
    assets: seq<AssetConfig>)

  /** Where the package id will come from: the config's `pkg_address`, or
      publishing the package at a path. */
  datatype RAMMPkgAddrSrc =
    | FromTOMLConfig
    | FromPkgPublication(path: string)

  // ---------------------------------------------------------------------------
  // build

  /** The parsed command line: the optional `--publish` path and the
      `--toml` path. */
  datatype ArgMatches = ArgMatches(publish: Option<string>, toml: Option<string>)

  /** The match on `(publish path, pkg_address)` in `build`. */
  function PkgAddrSrcOf(publish: Option<string>, pkgAddress: Option<AccountAddress>)
    : (r: Result<RAMMPkgAddrSrc, RAMMDeploymentError>)
  {
    match (publish, pkgAddress)
    case (None, None) => Err(NoPkgAddrAndNoPublishFlag)
    case (Some(path), None) => Ok(FromPkgPublication(path))
    case (_, Some(_)) => Ok(FromTOMLConfig)
  }

  /** The three outcomes of the decision, each as an if-and-only-if: an error
      exactly when neither a path nor an address is given; publication of
      exactly the given path when there is no address; the config's address
      whenever there is one, whether or not a path is given. */
  lemma PkgAddrSrcOfCases(publish: Option<string>, pkgAddress: Option<AccountAddress>)
    ensures PkgAddrSrcOf(publish, pkgAddress) == Err(NoPkgAddrAndNoPublishFlag) <==>
      publish.None? && pkgAddress.None?
    ensures forall path :: PkgAddrSrcOf(publish, pkgAddress) == Ok(FromPkgPublication(path)) <==>
      publish == Some(path) && pkgAddress.None?
    ensures PkgAddrSrcOf(publish, pkgAddress) == Ok(FromTOMLConfig) <==> pkgAddress.Some?
    ensures PkgAddrSrcOf(publish, pkgAddress).Err? ==>
      PkgAddrSrcOf(publish, pkgAddress).error == NoPkgAddrAndNoPublishFlag
  {
  }

  /** `parse_ramm_cfg`: read the file, then parse it as TOML, mapping each
      failure to its own error kind. Reading and parsing are parameters. */
  function ParseRammCfg(
    tomlPath: string,
    readToString: string -> Result<string, string>,
    fromToml: string -> Result<RAMMDeploymentConfig, string>)
    : (r: Result<RAMMDeploymentConfig, RAMMDeploymentError>)
    ensures readToString(tomlPath).Err? ==> r == Err(TOMLFileReadError(readToString(tomlPath).error))
    ensures readToString(tomlPath).Ok? ==>
      match fromToml(readToString(tomlPath).value)
      case Ok(cfg) => r == Ok(cfg)
      case Err(e) => r == Err(TOMLParseError(e))
  {
    match readToString(tomlPath)
    case Err(e) => Err(TOMLFileReadError(e))
    case Ok(text) =>
      match fromToml(text)
      case Err(e) => Err(TOMLParseError(e))
      case Ok(cfg) => Ok(cfg)
  }

  /** `build`: command-line errors become `CLIError`, a missing TOML path
      `NoTOMLConfigProvided`, config loading errors pass through, and
      otherwise the loaded config is returned unchanged together with the
      package source decided by `PkgAddrSrcOf`. */
  function Build(
    cli: Result<ArgMatches, string>,
    readToString: string -> Result<string, string>,
    fromToml: string -> Result<RAMMDeploymentConfig, string>)
    : (r: Result<(RAMMDeploymentConfig, RAMMPkgAddrSrc), RAMMDeploymentError>)
    ensures cli.Err? ==> r == Err(CLIError(cli.error))
    ensures cli.Ok? && cli.value.toml.None? ==> r == Err(NoTOMLConfigProvided)
    ensures cli.Ok? && cli.value.toml.Some? ==>
      var loaded := ParseRammCfg(cli.value.toml.value, readToString, fromToml);
      (loaded.Err? ==> r == Err(loaded.error)) &&
      (loaded.Ok? ==>
        match PkgAddrSrcOf(cli.value.publish, loaded.value.pkgAddress)
        case Err(e) => r == Err(e)
        case Ok(src) => r == Ok((loaded.value, src)))
  {
    match cli
    case Err(e) => Err(CLIError(e))
    case Ok(m) =>
      match m.toml
      case None => Err(NoTOMLConfigProvided)
      case Some(tomlPath) =>
        match ParseRammCfg(tomlPath, readToString, fromToml)
        case Err(e) => Err(e)
        case Ok(cfg) =>
          match PkgAddrSrcOf(m.publish, cfg.pkgAddress)
          case Err(e) => Err(e)
          case Ok(src) => Ok((cfg, src))
  }

  /** Whatever `build` returns successfully pairs the config exactly as it
      was read with a source that agrees with it: `FromTOMLConfig` exactly
      when the config names a package address, and otherwise publication of
      the `--publish` path. */
  lemma BuildSuccess(
    cli: Result<ArgMatches, string>,
    readToString: string -> Result<string, string>,
    fromToml: string -> Result<RAMMDeploymentConfig, string>)
    requires Build(cli, readToString, fromToml).Ok?
    ensures var (cfg, src) := Build(cli, readToString, fromToml).value;
      cli.Ok? && cli.value.toml.Some? &&
      readToString(cli.value.toml.value).Ok? &&
      fromToml(readToString(cli.value.toml.value).value) == Ok(cfg) &&
      (src == FromTOMLConfig <==> cfg.pkgAddress.Some?) &&
      (src.FromPkgPublication? ==> cli.value.publish == Some(src.path))
  {
  }

  // ---------------------------------------------------------------------------
  // Plain-text rendering

  /** `'\t'.repeat(tab_count - 1)` on a `usize`: a panic at zero. */
  datatype FmtPanic = SubtractWithOverflow

  /** The five lines `asset_cfg_fmt` writes. */
  function AssetLines(a: AssetConfig, tabCount: nat): seq<string>
    requires tabCount >= 1
  {
    [ Tabs(tabCount - 1) + "asset data:",
      Tabs(tabCount) + "asset type: " + a.assetType.text,
      Tabs(tabCount) + "aggregator address: " + a.aggregatorAddress.text,
      Tabs(tabCount) + "minimum trade amount: " + Decimal(a.minimumTradeAmount),
      Tabs(tabCount) + "decimal places: " + Decimal(a.decimalPlaces) ]
  }

  /** `AssetConfig::asset_cfg_fmt`: the text it appends to the formatter.
      It panics, writing nothing, when `tab_count` is 0. */
  method AssetCfgFmt(a: AssetConfig, tabCount: nat) returns (r: Result<string, FmtPanic>)
    ensures tabCount == 0 ==> r == Err(SubtractWithOverflow)
    ensures tabCount >= 1 ==> r == Ok(Unlines(AssetLines(a, tabCount)))
  {
    if tabCount == 0 {
      return Err(SubtractWithOverflow);
    }
    var firstPad := Tabs(tabCount - 1);
    var padding := Tabs(tabCount);
    var out := "";
    ghost var written: seq<string> := [];
    var line := firstPad + "asset data:";
    UnlinesSnoc(written, line);
    out, written := out + line + "\n", written + [line];
    line := padding + "asset type: " + a.assetType.text;
    UnlinesSnoc(written, line);
    out, written := out + line + "\n", written + [line];
    line := padding + "aggregator address: " + a.aggregatorAddress.text;
    UnlinesSnoc(written, line);
    out, written := out + line + "\n", written + [line];
    line := padding + "minimum trade amount: " + Decimal(a.minimumTradeAmount);
    UnlinesSnoc(written, line);
    out, written := out + line + "\n", written + [line];
    line := padding + "decimal places: " + Decimal(a.decimalPlaces);
    UnlinesSnoc(written, line);
    out, written := out + line + "\n", written + [line];
    assert written == AssetLines(a, tabCount);
    r := Ok(out);
  }

  /** `Display for AssetConfig`: it asks for indentation 0, so it always
      panics. */
  method DisplayAsset(a: AssetConfig) returns (r: Result<string, FmtPanic>)
    ensures r == Err(SubtractWithOverflow)
  {
    r := AssetCfgFmt(a, 0);
  }

  /** `Display for AssetConfig` with the indentation its documentation
      describes: the header at no indentation and the fields one tab in. */
  method DisplayAssetCorrected(a: AssetConfig) returns (r: Result<string, FmtPanic>)
    ensures r == Ok(Unlines(AssetLines(a, 1)))
    ensures var ls := Split(r.value);
      |ls| == 6 && ls[5] == "" && LeadingTabs(ls[0]) == 0 &&
      forall k :: 1 <= k < 5 ==> LeadingTabs(ls[k]) == 1
  {
    r := AssetCfgFmt(a, 1);
    AssetBlockLines(a, 1);
    AssetBlockIndent(a, 1);
  }

  /** Each line of a block is free of line breaks and starts with
      `tab_count - 1` tabs. */
  lemma AssetLinesIndented(a: AssetConfig, tabCount: nat)
    requires tabCount >= 1
    ensures AllLines(AssetLines(a, tabCount))
    ensures forall k :: 0 <= k < 5 ==> StartsWith(AssetLines(a, tabCount)[k], Tabs(tabCount - 1))
  {
    var ls := AssetLines(a, tabCount);
    TabsPrefix(tabCount - 1, tabCount - 1, "asset data:");
    assert ls[1] == Tabs(tabCount) + ("asset type: " + a.assetType.text);
    TabsPrefix(tabCount - 1, tabCount, "asset type: " + a.assetType.text);
    assert ls[2] == Tabs(tabCount) + ("aggregator address: " + a.aggregatorAddress.text);
    TabsPrefix(tabCount - 1, tabCount, "aggregator address: " + a.aggregatorAddress.text);
    assert ls[3] == Tabs(tabCount) + ("minimum trade amount: " + Decimal(a.minimumTradeAmount));
    TabsPrefix(tabCount - 1, tabCount, "minimum trade amount: " + Decimal(a.minimumTradeAmount));
    assert ls[4] == Tabs(tabCount) + ("decimal places: " + Decimal(a.decimalPlaces));
    TabsPrefix(tabCount - 1, tabCount, "decimal places: " + Decimal(a.decimalPlaces));
  }

  /** The text of one asset block is exactly five lines, each ended by a
      line break. */
  lemma AssetBlockLines(a: AssetConfig, tabCount: nat)
    requires tabCount >= 1
    ensures Split(Unlines(AssetLines(a, tabCount))) == AssetLines(a, tabCount) + [""]
  {
    var ls := AssetLines(a, tabCount);
    AssetLinesIndented(a, tabCount);
    SplitUnlines(ls, "");
    assert Unlines(ls) + "" == Unlines(ls);
  }

  /** The header line is indented by `tab_count - 1` tabs and the four field
      lines by `tab_count` tabs. */
  lemma AssetBlockIndent(a: AssetConfig, tabCount: nat)
    requires tabCount >= 1
    ensures var ls := AssetLines(a, tabCount);
      LeadingTabs(ls[0]) == tabCount - 1 &&
      forall k :: 1 <= k < 5 ==> LeadingTabs(ls[k]) == tabCount
  {
    LeadingTabsOfPadded(tabCount - 1, "asset data:");
    PaddedField(tabCount, "asset type: ", a.assetType.text);
    PaddedField(tabCount, "aggregator address: ", a.aggregatorAddress.text);
    PaddedField(tabCount, "minimum trade amount: ", Decimal(a.minimumTradeAmount));
    PaddedField(tabCount, "decimal places: ", Decimal(a.decimalPlaces));
  }

  /** `prefix + x == prefix + y` only when `x == y`. */
  lemma CancelPrefix(prefix: string, x: string, y: string)
    requires prefix + x == prefix + y
    ensures x == y
  {
    assert x == (prefix + x)[|prefix|..];
    assert y == (prefix + y)[|prefix|..];
  }

  /** The block loses nothing: two assets with the same block at the same
      indentation are the same asset. */
  lemma AssetLinesInjective(a: AssetConfig, b: AssetConfig, tabCount: nat)
    requires tabCount >= 1 && AssetLines(a, tabCount) == AssetLines(b, tabCount)
    ensures a == b
  {
    var la, lb := AssetLines(a, tabCount), AssetLines(b, tabCount);
    assert la[1] == lb[1] && la[2] == lb[2] && la[3] == lb[3] && la[4] == lb[4];
    CancelPrefix(Tabs(tabCount) + "asset type: ", a.assetType.text, b.assetType.text);
    CancelPrefix(Tabs(tabCount) + "aggregator address: ", a.aggregatorAddress.text, b.aggregatorAddress.text);
    CancelPrefix(Tabs(tabCount) + "minimum trade amount: ", Decimal(a.minimumTradeAmount), Decimal(b.minimumTradeAmount));
    CancelPrefix(Tabs(tabCount) + "decimal places: ", Decimal(a.decimalPlaces), Decimal(b.decimalPlaces));
    DecimalInjective(a.minimumTradeAmount, b.minimumTradeAmount);
    DecimalInjective(a.decimalPlaces, b.decimalPlaces);
  }

  /** The asset blocks of a list, one after another, in list order. */
  function AssetBlocks(assets: seq<AssetConfig>, tabCount: nat): seq<string>
    requires tabCount >= 1
  {
    if assets == [] then [] else AssetLines(assets[0], tabCount) + AssetBlocks(assets[1..], tabCount)
  }

  lemma {:induction false} AssetBlocksSnoc(assets: seq<AssetConfig>, a: AssetConfig, tabCount: nat)
    requires tabCount >= 1
    ensures AssetBlocks(assets + [a], tabCount) == AssetBlocks(assets, tabCount) + AssetLines(a, tabCount)
  {
    if assets == [] {
      assert assets + [a] == [a];
    } else {
      assert (assets + [a])[1..] == assets[1..] + [a];
      AssetBlocksSnoc(assets[1..], a, tabCount);
    }
  }

  /** The blocks of `n` assets are `5 * n` lines, the `i`-th group of five
      being the block of the `i`-th asset. */
  lemma {:induction false} AssetBlocksAt(assets: seq<AssetConfig>, tabCount: nat)
    requires tabCount >= 1
    ensures |AssetBlocks(assets, tabCount)| == 5 * |assets|
    ensures forall i :: 0 <= i < |assets| ==>
      AssetBlocks(assets, tabCount)[5 * i .. 5 * i + 5] == AssetLines(assets[i], tabCount)
  {
    if assets != [] {
      AssetBlocksAt(assets[1..], tabCount);
      var bs := AssetBlocks(assets, tabCount);
      var rest := AssetBlocks(assets[1..], tabCount);
      forall i | 0 <= i < |assets|
        ensures bs[5 * i .. 5 * i + 5] == AssetLines(assets[i], tabCount)
      {
        if i > 0 {
          assert bs[5 * i .. 5 * i + 5] == rest[5 * (i - 1) .. 5 * (i - 1) + 5];
          assert assets[i] == assets[1..][i - 1];
        }
      }
    }
  }

  /** Every line of the blocks is free of line breaks and starts with
      `tab_count - 1` tabs. */
  lemma {:induction false} AssetBlocksIndented(assets: seq<AssetConfig>, tabCount: nat)
    requires tabCount >= 1
    ensures forall k :: 0 <= k < |AssetBlocks(assets, tabCount)| ==>
      '\n' !in AssetBlocks(assets, tabCount)[k] && StartsWith(AssetBlocks(assets, tabCount)[k], Tabs(tabCount - 1))
  {
    if assets != [] {
      AssetBlocksIndented(assets[1..], tabCount);
      AssetLinesIndented(assets[0], tabCount);
      var head := AssetLines(assets[0], tabCount);
      var rest := AssetBlocks(assets[1..], tabCount);
      forall k | 0 <= k < |head + rest|
        ensures '\n' !in (head + rest)[k] && StartsWith((head + rest)[k], Tabs(tabCount - 1))
      {
        if k >= |head| { assert (head + rest)[k] == rest[k - |head|]; }
      }
    }
  }

  const LIBRARY_ADDRESS_LABEL := "\texisting RAMM library address:"

  /** The lines `Display for RAMMDeploymentConfig` writes before the asset
      blocks. */
  function HeadLines(cfg: RAMMDeploymentConfig): seq<string> {
    ["RAMM Deployment Configuration:", "\ttarget environment:" + cfg.targetEnv] +
    (match cfg.pkgAddress
     case None => []
     case Some(addr) => [LIBRARY_ADDRESS_LABEL + addr.text]) +
    ["\tasset list:"]
  }

  function FeeLine(cfg: RAMMDeploymentConfig): string {
    "\tfee collection address: " + cfg.feeCollectionAddress.text
  }

  /** The last line, written without a line break. */
  function CountLine(cfg: RAMMDeploymentConfig): string {
    "\tasset count: " + Decimal(cfg.assetCount)
  }

  /** All lines of the rendering but the last. */
  function BodyLines(cfg: RAMMDeploymentConfig): seq<string> {
    HeadLines(cfg) + AssetBlocks(cfg.assets, 3) + [FeeLine(cfg)]
  }

  /** The rendered text: every line but the last ended by a line break. */
  function ConfigText(cfg: RAMMDeploymentConfig): string {
    Unlines(BodyLines(cfg)) + CountLine(cfg)
  }

  /** `Display for RAMMDeploymentConfig`: the header lines, one block per
      asset at indentation 3, then the fee address and the count. */
  method FmtConfig(cfg: RAMMDeploymentConfig) returns (r: Result<string, FmtPanic>)
    ensures r == Ok(ConfigText(cfg))
  {
    var out := "";
    ghost var written: seq<string> := [];
    var line := "RAMM Deployment Configuration:";
    UnlinesSnoc(written, line);
    out, written := out + line + "\n", written + [line];
    line := "\ttarget environment:" + cfg.targetEnv;
    UnlinesSnoc(written, line);
    out, written := out + line + "\n", written + [line];
    match cfg.pkgAddress {
      case None =>
      case Some(addr) =>
        line := LIBRARY_ADDRESS_LABEL + addr.text;
        UnlinesSnoc(written, line);
        out, written := out + line + "\n", written + [line];
    }
    line := "\tasset list:";
    UnlinesSnoc(written, line);
    out, written := out + line + "\n", written + [line];
    assert written == HeadLines(cfg) + AssetBlocks(cfg.assets[..0], 3);
    var i := 0;
    while i < |cfg.assets|
      invariant 0 <= i <= |cfg.assets|
      invariant written == HeadLines(cfg) + AssetBlocks(cfg.assets[..i], 3)
      invariant out == Unlines(written)
    {
      // At indentation 3 the `?` after `asset_cfg_fmt` never returns early.
      var block := AssetCfgFmt(cfg.assets[i], 3);
      AssetBlocksSnoc(cfg.assets[..i], cfg.assets[i], 3);
      assert cfg.assets[..i + 1] == cfg.assets[..i] + [cfg.assets[i]];
      UnlinesAppend(written, AssetLines(cfg.assets[i], 3));
      out, written := out + block.value, written + AssetLines(cfg.assets[i], 3);
      i := i + 1;
    }
    assert cfg.assets[..i] == cfg.assets;
    line := FeeLine(cfg);
    UnlinesSnoc(written, line);
    out, written := out + line + "\n", written + [line];
    out := out + CountLine(cfg);
    r := Ok(out);
  }

  /** All lines of the rendering, the last one unterminated. */
  function ConfigLines(cfg: RAMMDeploymentConfig): seq<string> {
    BodyLines(cfg) + [CountLine(cfg)]
  }

  /** No line of the rendering but the last ends in a line break of its
      own (provided the environment name has none). */
  lemma BodyLinesAreLines(cfg: RAMMDeploymentConfig)
    requires '\n' !in cfg.targetEnv
    ensures AllLines(BodyLines(cfg))
  {
    var head, blocks := HeadLines(cfg), AssetBlocks(cfg.assets, 3);
    AssetBlocksIndented(cfg.assets, 3);
    assert AllLines(blocks);
    assert AllLines([FeeLine(cfg)]);
    AllLinesAppend(head, blocks);
    AllLinesAppend(head + blocks, [FeeLine(cfg)]);
  }

  /** Split at its line breaks, the rendering gives back exactly its lines
      (provided the environment name has no line break of its own). */
  lemma ConfigTextLines(cfg: RAMMDeploymentConfig)
    requires '\n' !in cfg.targetEnv
    ensures Split(ConfigText(cfg)) == ConfigLines(cfg)
  {
    BodyLinesAreLines(cfg);
    SplitUnlines(BodyLines(cfg), CountLine(cfg));
  }

  /** No line other than the package-address line has `e` as its second
      character, which that line's label has. */
  lemma OnlyLibraryLineMatches(cfg: RAMMDeploymentConfig, k: nat)
    requires k < |ConfigLines(cfg)|
    requires StartsWith(ConfigLines(cfg)[k], LIBRARY_ADDRESS_LABEL)
    ensures cfg.pkgAddress.Some?
  {
    var ls := ConfigLines(cfg);
    var head, blocks := HeadLines(cfg), AssetBlocks(cfg.assets, 3);
    assert ls[k][1] == 'e';
    if |head| <= k < |head| + |blocks| {
      AssetBlocksIndented(cfg.assets, 3);
      assert false;
    }
  }

  /** The "existing RAMM library address" line appears exactly when the
      config names a package address. */
  lemma LibraryAddressLineIff(cfg: RAMMDeploymentConfig)
    requires '\n' !in cfg.targetEnv
    ensures var ls := Split(ConfigText(cfg));
      (exists k :: 0 <= k < |ls| && StartsWith(ls[k], LIBRARY_ADDRESS_LABEL)) <==> cfg.pkgAddress.Some?
  {
    ConfigTextLines(cfg);
    var ls := ConfigLines(cfg);
    if cfg.pkgAddress.Some? {
      assert StartsWith(ls[2], LIBRARY_ADDRESS_LABEL);
    }
    if exists k :: 0 <= k < |ls| && StartsWith(ls[k], LIBRARY_ADDRESS_LABEL) {
      var k :| 0 <= k < |ls| && StartsWith(ls[k], LIBRARY_ADDRESS_LABEL);
      OnlyLibraryLineMatches(cfg, k);
    }
  }

  /** One block at indentation 3 per asset, in list order, right after the
      `asset list:` line; then the fee address line and, last and without a
      line break, the asset count. */
  lemma ConfigLayout(cfg: RAMMDeploymentConfig)
    requires '\n' !in cfg.targetEnv
    ensures var ls := Split(ConfigText(cfg));
      var base := if cfg.pkgAddress.Some? then 4 else 3;
      |ls| == base + 5 * |cfg.assets| + 2 &&
      ls[base - 1] == "\tasset list:" &&
      (forall i :: 0 <= i < |cfg.assets| ==>
        ls[base + 5 * i .. base + 5 * i + 5] == AssetLines(cfg.assets[i], 3)) &&
      ls[|ls| - 1] == "\tasset count: " + Decimal(cfg.assetCount)
    ensures var s := ConfigText(cfg); s[|s| - 1] != '\n'
  {
    ConfigTextLines(cfg);
    AssetBlocksAt(cfg.assets, 3);
    var ls := ConfigLines(cfg);
    var head, blocks := HeadLines(cfg), AssetBlocks(cfg.assets, 3);
    forall i | 0 <= i < |cfg.assets|
      ensures ls[|head| + 5 * i .. |head| + 5 * i + 5] == AssetLines(cfg.assets[i], 3)
    {
      assert ls[|head| + 5 * i .. |head| + 5 * i + 5] == blocks[5 * i .. 5 * i + 5];
    }
    NoTrailingBreak(BodyLines(cfg), CountLine(cfg));
  }
}
