/** The plain-text rendering of the earlier deployment config, in
    ramm_sui_deploy/src/lib.rs: faucet data, assets and the whole config,
    each written line by line into a formatter. All text fields are free
    strings read from the config, so the line-structure lemmas ask for them
    to hold no line break. */
module LegacyLib {
  import opened Sui
  import opened Text

  datatype FaucetData = FaucetData(packageId: string, moduleName: string)

  datatype AssetConfig = AssetConfig(
    assetName: string,
    aggregatorAddress: string,
    minimumTradeAmount: u64,
    decimalPlaces: u8)

  datatype RAMMDeploymentConfig = RAMMDeploymentConfig(
    faucetData: FaucetData,
    assetCount: u8,
    feeCollectionAddress: string,
    assets: seq<AssetConfig>)

  /** The panic of `tab_count - 1` on a `usize` holding 0 (as in DeployLib). */
  datatype FmtPanic = SubtractWithOverflow

  // ---------------------------------------------------------------------------
  // Faucet data

  /** The three lines `faucet_data_fmt` writes. */
  function FaucetLines(d: FaucetData, tabCount: nat): seq<string>
    requires tabCount >= 1
  {
    [ Tabs(tabCount - 1) + "faucet data:",
      Tabs(tabCount) + "package ID: " + d.packageId,
      Tabs(tabCount) + "module name: " + d.moduleName ]
  }

  /** `FaucetData::faucet_data_fmt`: the text it appends to the formatter.
      It panics, writing nothing, when `tab_count` is 0. */
  method FaucetDataFmt(d: FaucetData, tabCount: nat) returns (r: Result<string, FmtPanic>)
    ensures tabCount == 0 ==> r == Err(SubtractWithOverflow)
    ensures tabCount >= 1 ==> r == Ok(Unlines(FaucetLines(d, tabCount)))
  {
    if tabCount == 0 {
      return Err(SubtractWithOverflow);
    }
    var firstPad := Tabs(tabCount - 1);
    var padding := Tabs(tabCount);
    var out := "";
    ghost var written: seq<string> := [];
    var line := firstPad + "faucet data:";
    UnlinesSnoc(written, line);
    out, written := out + line + "\n", written + [line];
    line := padding + "package ID: " + d.packageId;
    UnlinesSnoc(written, line);
    out, written := out + line + "\n", written + [line];
    line := padding + "module name: " + d.moduleName;
    UnlinesSnoc(written, line);
    out, written := out + line + "\n", written + [line];
    assert written == FaucetLines(d, tabCount);
    r := Ok(out);
  }

  /** `Display for FaucetData`: it asks for indentation 0, so it always
      panics. */
  method DisplayFaucet(d: FaucetData) returns (r: Result<string, FmtPanic>)
    ensures r == Err(SubtractWithOverflow)
  {
    r := FaucetDataFmt(d, 0);
  }

  predicate FaucetSingleLine(d: FaucetData) {
    '\n' !in d.packageId && '\n' !in d.moduleName
  }

  lemma FaucetLinesAreLines(d: FaucetData, tabCount: nat)
    requires tabCount >= 1 && FaucetSingleLine(d)
    ensures AllLines(FaucetLines(d, tabCount))
  {
    var ls := FaucetLines(d, tabCount);
    assert ls[1] == Tabs(tabCount) + ("package ID: " + d.packageId);
    assert ls[2] == Tabs(tabCount) + ("module name: " + d.moduleName);
  }

  /** Split at its line breaks, a faucet block is its three lines and an
      empty rest; the header is indented by `tab_count - 1` tabs and the
      two fields by `tab_count`. */
  lemma FaucetBlockShape(d: FaucetData, tabCount: nat)
    requires tabCount >= 1 && FaucetSingleLine(d)
    ensures Split(Unlines(FaucetLines(d, tabCount))) == FaucetLines(d, tabCount) + [""]
    ensures var ls := FaucetLines(d, tabCount);
      LeadingTabs(ls[0]) == tabCount - 1 && LeadingTabs(ls[1]) == tabCount && LeadingTabs(ls[2]) == tabCount
  {
    var ls := FaucetLines(d, tabCount);
    FaucetLinesAreLines(d, tabCount);
    SplitUnlines(ls, "");
    assert Unlines(ls) + "" == Unlines(ls);
    LeadingTabsOfPadded(tabCount - 1, "faucet data:");
    PaddedField(tabCount, "package ID: ", d.packageId);
    PaddedField(tabCount, "module name: ", d.moduleName);
  }

  /** `Display for FaucetData` with the indentation the block's layout
      implies: it always succeeds, and with single-line fields it puts the
      header at no indentation and the fields one tab in. */
  method DisplayFaucetCorrected(d: FaucetData) returns (r: Result<string, FmtPanic>)
    ensures r == Ok(Unlines(FaucetLines(d, 1)))
    ensures FaucetSingleLine(d) ==>
      var ls := Split(r.value);
      |ls| == 4 && ls[3] == "" && LeadingTabs(ls[0]) == 0 && LeadingTabs(ls[1]) == 1 && LeadingTabs(ls[2]) == 1
  {
    r := FaucetDataFmt(d, 1);
    if FaucetSingleLine(d) {
      FaucetBlockShape(d, 1);
    }
  }

  // ---------------------------------------------------------------------------
  // Assets

  /** The five lines `asset_cfg_fmt` writes. */
  function AssetLines(a: AssetConfig, tabCount: nat): seq<string>
    requires tabCount >= 1
  {
    [ Tabs(tabCount - 1) + "asset data:",
      Tabs(tabCount) + "asset name: " + a.assetName,
      Tabs(tabCount) + "aggregator address: " + a.aggregatorAddress,
      Tabs(tabCount) + "minimum trade amount: " + Decimal(a.minimumTradeAmount),
      Tabs(tabCount) + "decimal places: " + Decimal(a.decimalPlaces) ]
  }

  /** `AssetConfig::asset_cfg_fmt`: the text it appends to the formatter.
      It panics, writing nothing, when `tab_count` is 0. */
  method AssetCfgFmt(a: AssetConfig, tabCount: nat) returns (r: Result<string, FmtPanic>)
    ensures tabCount == 0 ==> r == Err(SubtractWithOverflow)
    ensures tabCount >= 1 ==> r == Ok(Unlines(AssetLines(a, tabCount)))
  {
    if tabCount == 0 {
      return Err(SubtractWithOverflow);
    }
    var firstPad := Tabs(tabCount - 1);
    var padding := Tabs(tabCount);
    var out := "";
    ghost var written: seq<string> := [];
    var line := firstPad + "asset data:";
    UnlinesSnoc(written, line);
    out, written := out + line + "\n", written + [line];
    line := padding + "asset name: " + a.assetName;
    UnlinesSnoc(written, line);
    out, written := out + line + "\n", written + [line];
    line := padding + "aggregator address: " + a.aggregatorAddress;
    UnlinesSnoc(written, line);
    out, written := out + line + "\n", written + [line];
    line := padding + "minimum trade amount: " + Decimal(a.minimumTradeAmount);
    UnlinesSnoc(written, line);
    out, written := out + line + "\n", written + [line];
    line := padding + "decimal places: " + Decimal(a.decimalPlaces);
    UnlinesSnoc(written, line);
    out, written := out + line + "\n", written + [line];
    assert written == AssetLines(a, tabCount);
    r := Ok(out);
  }

  /** `Display for AssetConfig`: it asks for indentation 0, so it always
      panics. */
  method DisplayAsset(a: AssetConfig) returns (r: Result<string, FmtPanic>)
    ensures r == Err(SubtractWithOverflow)
  {
    r := AssetCfgFmt(a, 0);
  }

  predicate AssetSingleLine(a: AssetConfig) {
    '\n' !in a.assetName && '\n' !in a.aggregatorAddress
  }

  /** Each line of an asset block is free of line breaks and indented by
      `tab_count - 1` tabs (the header) or `tab_count` tabs (the fields). */
  lemma AssetBlockShape(a: AssetConfig, tabCount: nat)
    requires tabCount >= 1 && AssetSingleLine(a)
    ensures AllLines(AssetLines(a, tabCount))
    ensures var ls := AssetLines(a, tabCount);
      LeadingTabs(ls[0]) == tabCount - 1 && forall k :: 1 <= k < 5 ==> LeadingTabs(ls[k]) == tabCount
  {
    var ls := AssetLines(a, tabCount);
    assert ls[1] == Tabs(tabCount) + ("asset name: " + a.assetName);
    assert ls[2] == Tabs(tabCount) + ("aggregator address: " + a.aggregatorAddress);
    assert ls[3] == Tabs(tabCount) + ("minimum trade amount: " + Decimal(a.minimumTradeAmount));
    assert ls[4] == Tabs(tabCount) + ("decimal places: " + Decimal(a.decimalPlaces));
    LeadingTabsOfPadded(tabCount - 1, "asset data:");
    PaddedField(tabCount, "asset name: ", a.assetName);
    PaddedField(tabCount, "aggregator address: ", a.aggregatorAddress);
    PaddedField(tabCount, "minimum trade amount: ", Decimal(a.minimumTradeAmount));
    PaddedField(tabCount, "decimal places: ", Decimal(a.decimalPlaces));
  }

  /** `Display for AssetConfig` with the indentation the block's layout
      implies: it always succeeds, and with single-line fields it puts the
      header at no indentation and the fields one tab in. */
  method DisplayAssetCorrected(a: AssetConfig) returns (r: Result<string, FmtPanic>)
    ensures r == Ok(Unlines(AssetLines(a, 1)))
    ensures AssetSingleLine(a) ==>
      var ls := Split(r.value);
      |ls| == 6 && ls[5] == "" && LeadingTabs(ls[0]) == 0 &&
      forall k :: 1 <= k < 5 ==> LeadingTabs(ls[k]) == 1
  {
    r := AssetCfgFmt(a, 1);
    if AssetSingleLine(a) {
      AssetBlockShape(a, 1);
      SplitUnlines(AssetLines(a, 1), "");
      assert Unlines(AssetLines(a, 1)) + "" == Unlines(AssetLines(a, 1));
    }
  }

  // The block functions and lemmas below mirror DeployLib's, over this
  // crate's own asset type.

  /** The asset blocks of a list, one after another, in list order. */
  function AssetBlocks(assets: seq<AssetConfig>, tabCount: nat): seq<string>
    requires tabCount >= 1
  {
    if assets == [] then [] else AssetLines(assets[0], tabCount) + AssetBlocks(assets[1..], tabCount)
  }

  lemma {:induction false} AssetBlocksSnoc(assets: seq<AssetConfig>, a: AssetConfig, tabCount: nat)
    requires tabCount >= 1
    ensures AssetBlocks(assets + [a], tabCount) == AssetBlocks(assets, tabCount) + AssetLines(a, tabCount)
  {
    if assets == [] {
      assert assets + [a] == [a];
    } else {
      assert (assets + [a])[1..] == assets[1..] + [a];
      AssetBlocksSnoc(assets[1..], a, tabCount);
    }
  }

  /** The blocks of `n` assets are `5 * n` lines, the `i`-th group of five
      being the block of the `i`-th asset. */
  lemma {:induction false} AssetBlocksAt(assets: seq<AssetConfig>, tabCount: nat)
    requires tabCount >= 1
    ensures |AssetBlocks(assets, tabCount)| == 5 * |assets|
    ensures forall i :: 0 <= i < |assets| ==>
      AssetBlocks(assets, tabCount)[5 * i .. 5 * i + 5] == AssetLines(assets[i], tabCount)
  {
    if assets != [] {
      AssetBlocksAt(assets[1..], tabCount);
      var bs := AssetBlocks(assets, tabCount);
      var rest := AssetBlocks(assets[1..], tabCount);
      forall i | 0 <= i < |assets|
        ensures bs[5 * i .. 5 * i + 5] == AssetLines(assets[i], tabCount)
      {
        if i > 0 {
          assert bs[5 * i .. 5 * i + 5] == rest[5 * (i - 1) .. 5 * (i - 1) + 5];
          assert assets[i] == assets[1..][i - 1];
        }
      }
    }
  }

  /** With single-line text fields, no line of the blocks holds a line break. */
  lemma {:induction false} AssetBlocksAreLines(assets: seq<AssetConfig>, tabCount: nat)
    requires tabCount >= 1
    requires forall i :: 0 <= i < |assets| ==> AssetSingleLine(assets[i])
    ensures AllLines(AssetBlocks(assets, tabCount))
  {
    if assets != [] {
      AssetBlocksAreLines(assets[1..], tabCount);
      AssetBlockShape(assets[0], tabCount);
      var head := AssetLines(assets[0], tabCount);
      var rest := AssetBlocks(assets[1..], tabCount);
      forall k | 0 <= k < |head + rest| ensures '\n' !in (head + rest)[k] {
        if k >= |head| { assert (head + rest)[k] == rest[k - |head|]; }
      }
    }
  }

  // ---------------------------------------------------------------------------
  // The whole config

  const HEADER_LINES := ["RAMM Deployment Configuration:", "\tasset list:"]

  function FeeLine(cfg: RAMMDeploymentConfig): string {
    "\tfee collection address: " + cfg.feeCollectionAddress
  }

  /** The last line, written without a line break. */
  function CountLine(cfg: RAMMDeploymentConfig): string {
    "\tasset count: " + Decimal(cfg.assetCount)
  }

  /** All lines of the rendering but the last. */
  function BodyLines(cfg: RAMMDeploymentConfig): seq<string> {
    HEADER_LINES + AssetBlocks(cfg.assets, 3) + FaucetLines(cfg.faucetData, 2) + [FeeLine(cfg)]
  }

  /** The rendered text: every line but the last ended by a line break. */
  function ConfigText(cfg: RAMMDeploymentConfig): string {
    Unlines(BodyLines(cfg)) + CountLine(cfg)
  }

  /** `Display for RAMMDeploymentConfig`: the header, the asset blocks at
      indentation 3, the faucet block at indentation 2, the fee address and
      the count. */
  method FmtConfig(cfg: RAMMDeploymentConfig) returns (r: Result<string, FmtPanic>)
    ensures r == Ok(ConfigText(cfg))
  {
    var out := "";
    ghost var written: seq<string> := [];
    var line := "RAMM Deployment Configuration:";
    UnlinesSnoc(written, line);
    out, written := out + line + "\n", written + [line];
    line := "\tasset list:";
    UnlinesSnoc(written, line);
    out, written := out + line + "\n", written + [line];
    assert written == HEADER_LINES + AssetBlocks(cfg.assets[..0], 3);
    var i := 0;
    while i < |cfg.assets|
      invariant 0 <= i <= |cfg.assets|
      invariant written == HEADER_LINES + AssetBlocks(cfg.assets[..i], 3)
      invariant out == Unlines(written)
    {
      // At indentation 3 the `?` after `asset_cfg_fmt` never returns early.
      var block := AssetCfgFmt(cfg.assets[i], 3);
      AssetBlocksSnoc(cfg.assets[..i], cfg.assets[i], 3);
      assert cfg.assets[..i + 1] == cfg.assets[..i] + [cfg.assets[i]];
      UnlinesAppend(written, AssetLines(cfg.assets[i], 3));
      out, written := out + block.value, written + AssetLines(cfg.assets[i], 3);
      i := i + 1;
    }
    assert cfg.assets[..i] == cfg.assets;
    // At indentation 2 the `?` after `faucet_data_fmt` never returns early.
    var faucet := FaucetDataFmt(cfg.faucetData, 2);
    UnlinesAppend(written, FaucetLines(cfg.faucetData, 2));
    out, written := out + faucet.value, written + FaucetLines(cfg.faucetData, 2);
    line := FeeLine(cfg);
    UnlinesSnoc(written, line);
    out, written := out + line + "\n", written + [line];
    out := out + CountLine(cfg);
    r := Ok(out);
  }

  /** Every free text field of the config is a single line. */
  predicate SingleLineFields(cfg: RAMMDeploymentConfig) {
    FaucetSingleLine(cfg.faucetData) && '\n' !in cfg.feeCollectionAddress &&
    forall i :: 0 <= i < |cfg.assets| ==> AssetSingleLine(cfg.assets[i])
  }

  /** All lines of the rendering, the last one unterminated. */
  function ConfigLines(cfg: RAMMDeploymentConfig): seq<string> {
    BodyLines(cfg) + [CountLine(cfg)]
  }

  lemma BodyLinesAreLines(cfg: RAMMDeploymentConfig)
    requires SingleLineFields(cfg)
    ensures AllLines(BodyLines(cfg))
  {
    AssetBlocksAreLines(cfg.assets, 3);
    FaucetLinesAreLines(cfg.faucetData, 2);
    assert AllLines([FeeLine(cfg)]);
    AllLinesAppend(HEADER_LINES, AssetBlocks(cfg.assets, 3));
    AllLinesAppend(HEADER_LINES + AssetBlocks(cfg.assets, 3), FaucetLines(cfg.faucetData, 2));
    AllLinesAppend(HEADER_LINES + AssetBlocks(cfg.assets, 3) + FaucetLines(cfg.faucetData, 2), [FeeLine(cfg)]);
  }

  /** Split at its line breaks, the rendering gives back exactly its lines. */
  lemma ConfigTextLines(cfg: RAMMDeploymentConfig)
    requires SingleLineFields(cfg)
    ensures Split(ConfigText(cfg)) == ConfigLines(cfg)
  {
    BodyLinesAreLines(cfg);
    SplitUnlines(BodyLines(cfg), CountLine(cfg));
  }

  /** The rendering's line order: the header, `asset list:`, one block at
      indentation 3 per asset in list order, the faucet block at indentation
      2, the fee address, and last, without a line break, the count. */
  lemma ConfigLayout(cfg: RAMMDeploymentConfig)
    requires SingleLineFields(cfg)
    ensures var ls := Split(ConfigText(cfg));
      var n := 5 * |cfg.assets|;
      |ls| == n + 7 &&
      ls[0] == "RAMM Deployment Configuration:" && ls[1] == "\tasset list:" &&
      (forall i :: 0 <= i < |cfg.assets| ==> ls[2 + 5 * i .. 2 + 5 * i + 5] == AssetLines(cfg.assets[i], 3)) &&
      ls[n + 2 .. n + 5] == FaucetLines(cfg.faucetData, 2) &&
      ls[n + 5] == "\tfee collection address: " + cfg.feeCollectionAddress &&
      ls[n + 6] == "\tasset count: " + Decimal(cfg.assetCount)
    ensures var s := ConfigText(cfg); s[|s| - 1] != '\n'
  {
    ConfigTextLines(cfg);
    AssetBlocksAt(cfg.assets, 3);
    var ls := ConfigLines(cfg);
    var blocks := AssetBlocks(cfg.assets, 3);
    var n := 5 * |cfg.assets|;
    forall i | 0 <= i < |cfg.assets|
      ensures ls[2 + 5 * i .. 2 + 5 * i + 5] == AssetLines(cfg.assets[i], 3)
    {
      assert ls[2 + 5 * i .. 2 + 5 * i + 5] == blocks[5 * i .. 5 * i + 5];
    }
    assert ls[n + 2 .. n + 5] == FaucetLines(cfg.faucetData, 2);
    NoTrailingBreak(BodyLines(cfg), CountLine(cfg));
  }
}
