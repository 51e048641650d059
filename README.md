# RAMM deployment tool for Sui — a Dafny model

This project models the parts of the RAMM deployment tool that have their own logic. The tool is a Rust program that deploys a RAMM (a multi-asset automated market maker) to the Sui network. The modelled parts are these:

- **Config validation and package-source decoding** (`ramm-sui-deploy/src/types.rs`, module `DeployTypes`). `validate_ramm_cfg` decides whether a deployment config is acceptable. `de_addr_or_path` reads the package field either as an existing package id or as a path to publish.
- **The command-line decision and the plain-text config rendering** (`ramm-sui-deploy/src/lib.rs`, module `DeployLib`). `build` maps each failure to its own error kind and decides where the package id comes from. `asset_cfg_fmt` and the two `Display` impls render the config line by line.
- **Object resolution and transaction construction** (`ramm-sui-deploy/src/main.rs`, module `DeployMain`). This covers:
  - finding the published package id and the two capability ids;
  - telling the admin capability from the new-asset capability;
  - building the programmable transaction block (PTB) that adds the assets to the RAMM, and the transaction data that pays for it.

  The network's answers are inputs here.
- **The earlier config renderer** (`ramm_sui_deploy/src/lib.rs`, module `LegacyLib`). It renders faucet data, assets and the config.

Two modules support these. `Sui` holds stand-ins for the SDK's identifier, owner and effects types, and the iterator `filter` step with lemmas about it. `Text` holds tab padding, decimal rendering and the view of a text as its lines.

**How the model is written.**

- **Parsing and I/O are parameters.** `ObjectID::from_str`, reading a file, TOML decoding and type-tag construction are passed in as functions that may fail. SDK identifiers carry only their displayed text.
- **Formatters are methods.** Each one builds the text it appends to the formatter and is proved equal to a specification function over lines. Lemmas then give the line layout and the indentation.
- **The PTB builder is a class.** Its `commands` field is appended to by `MoveCall` and `ProgrammableMoveCall`. `BuildRammPtb` runs the `for ix in 0..asset_count` loop over it, and its postcondition characterises the finished command list. Every failure is characterised as well: an index past the end of the asset list panics, and a failed type tag exits with code 1.
- **Failures are outcomes.** A panic (`expect`, `unwrap`, `assert!`, `panic!`, an indexing past the end, a `usize` subtraction below 0) and an `ExitCode::from(1)` return are values of the model. They are not preconditions.

## Notes on the source

- **Package id.** The `expect` message at main.rs:219 asks only for "at least 1 immutable object". The code takes the first immutable created object and ignores any later ones (`PackageId`, `PackageIdIgnoresLaterImmutables`).
- **Failure handling.** Every failed invariant crashes through `expect`, `assert!` or `panic!`. The model makes each crash a `Panic` value.
- **No initialisation call.** The comment at main.rs:365-369 lists "2. Initialize it" among the PTB's actions. The `initialize_ramm` call at main.rs:440-448 is commented out, so the PTB ends after the last `add_asset_to_ramm` (`RammPtbCounts`).
- **Capability assignment.** The match at main.rs:328-332 never tells the two capabilities apart (see Findings). `ResolveCaps` and `Deploy` take the assignment as a parameter: `AsWritten` is the program as it stands, and `Corrected` is the comparison the code evidently intends.

## Model

| member | source | states |
|---|---|---|
| DeployTypes.AllDecimalsOkIff | ramm-sui-deploy/src/types.rs:125 | the `iter().all` scan accepts exactly when every asset has at least `ASSET_MIN_DECIMAL_PLACES` (4) decimal places |
| DeployTypes.ValidateRammCfgIff | ramm-sui-deploy/src/types.rs:122-126 | a config validates iff count == length mod 256, count > 0, the environment is one of "active"/"testnet"/"mainnet", and every asset has ≥ 4 decimals |
| DeployTypes.EmptyAssetsInvalid | ramm-sui-deploy/src/types.rs:123 | an empty asset list never validates, whatever the other fields |
| DeployTypes.LowDecimalsInvalid | ramm-sui-deploy/src/types.rs:125 | one asset below 4 decimal places, at any position, rejects the config |
| DeployTypes.UnknownEnvInvalid | ramm-sui-deploy/src/types.rs:124 | any environment name other than the three exact literals is rejected |
| DeployTypes.CountCheckIsModulo256 | ramm-sui-deploy/src/types.rs:123 | 257 assets with `asset_count = 1` pass validation, so the count is only compared modulo 256 |
| DeployTypes.ValidateRammCfgExactIff | ramm-sui-deploy/src/types.rs:112-113 | the exact-length check accepts exactly the configs the written check accepts with fewer than 256 assets, and always has count == length |
| DeployTypes.DeAddrOrPath | ramm-sui-deploy/src/types.rs:78-90 | a field that is not a string is an error, passed through unchanged; every string yields some source |
| DeployTypes.DeAddrOrPathCases | ramm-sui-deploy/src/types.rs:82-89 | a string that parses as an id becomes `FromTomlConfig` of that id, any other becomes `FromPkgPublication` of the same text, and a valid id is never taken for a path |
| DeployTypes.DeAddrOrPathRoundTrip | ramm-sui-deploy/src/types.rs:78-90 | decoding the written form of a source gives back that source |
| DeployLib.PkgAddrSrcOfCases | ramm-sui-deploy/src/lib.rs:169-173 | no path and no address is `NoPkgAddrAndNoPublishFlag`; a path without an address publishes exactly that path; any address gives `FromTOMLConfig`, whether or not a path is given |
| DeployLib.ParseRammCfg | ramm-sui-deploy/src/lib.rs:183-189 | a read failure becomes `TOMLFileReadError`, a parse failure `TOMLParseError`, otherwise the parsed config |
| DeployLib.Build | ramm-sui-deploy/src/lib.rs:133-176 | a command-line failure is `CLIError`, a missing TOML path `NoTOMLConfigProvided`, loading errors pass through, and otherwise the result is the config paired with the decided source |
| DeployLib.BuildSuccess | ramm-sui-deploy/src/lib.rs:167-175 | a successful `build` returns the config exactly as parsed, with `FromTOMLConfig` iff it has a package address and otherwise the `--publish` path |
| DeployLib.AssetCfgFmt | ramm-sui-deploy/src/lib.rs:36-54 | panics at `tab_count` 0; otherwise appends exactly the five lines header, type, aggregator, minimum trade amount, decimals, each ended by a line break |
| DeployLib.DisplayAsset | ramm-sui-deploy/src/lib.rs:57-61 | `Display for AssetConfig` always panics, since it passes indentation 0 |
| DeployLib.DisplayAssetCorrected | ramm-sui-deploy/src/lib.rs:57-61 | at indentation 1 the rendering always succeeds with the five asset lines, which split back as the header at 0 tabs and the fields at 1 tab |
| DeployLib.AssetLinesIndented | ramm-sui-deploy/src/lib.rs:44-53 | each block line is free of line breaks and starts with `tab_count - 1` tabs |
| DeployLib.AssetBlockLines | ramm-sui-deploy/src/lib.rs:47-53 | split at line breaks, a block's text is exactly its five lines and an empty rest |
| DeployLib.AssetBlockIndent | ramm-sui-deploy/src/lib.rs:44-53 | the header is indented by exactly `tab_count - 1` tabs and the four fields by exactly `tab_count` |
| DeployLib.AssetLinesInjective | ramm-sui-deploy/src/lib.rs:47-53 | two assets with the same block at the same indentation are the same asset |
| DeployLib.AssetBlocksAt | ramm-sui-deploy/src/lib.rs:105-107 | the blocks of n assets are 5n lines, the i-th group of five being the i-th asset's block |
| DeployLib.AssetBlocksIndented | ramm-sui-deploy/src/lib.rs:105-107 | every line of the asset blocks is a single line starting with `tab_count - 1` tabs |
| DeployLib.FmtConfig | ramm-sui-deploy/src/lib.rs:95-110 | the loop appends exactly the header lines, one block at indentation 3 per asset, the fee line and the unterminated count line |
| DeployLib.BodyLinesAreLines | ramm-sui-deploy/src/lib.rs:95-108 | no rendered line before the last holds a line break of its own |
| DeployLib.ConfigTextLines | ramm-sui-deploy/src/lib.rs:95-110 | split at its line breaks, the rendering gives back exactly its lines |
| DeployLib.OnlyLibraryLineMatches | ramm-sui-deploy/src/lib.rs:98-103 | a line starting with the library-address label exists only if `pkg_address` is set |
| DeployLib.LibraryAddressLineIff | ramm-sui-deploy/src/lib.rs:98-103 | the "existing RAMM library address" line appears iff `pkg_address` is `Some` |
| DeployLib.ConfigLayout | ramm-sui-deploy/src/lib.rs:104-109 | one tab-3 block per asset in list order after "\tasset list:", and the text ends with "\tasset count: N" and no trailing line break |
| Sui.FilterFirst | ramm-sui-deploy/src/main.rs:214-219 | `filter` keeps nothing iff nothing matches, and otherwise starts with the first match |
| Sui.FilterPairAt | ramm-sui-deploy/src/main.rs:294-298 | with exactly two matches, `filter` keeps those two in order |
| Sui.FilterPair | ramm-sui-deploy/src/main.rs:294-299 | `filter` keeps two elements iff exactly two match |
| DeployMain.PackageId | ramm-sui-deploy/src/main.rs:211-221 | missing effects or no immutable object panics; otherwise the id of the first immutable created object, in effects order |
| DeployMain.PackageIdIgnoresLaterImmutables | ramm-sui-deploy/src/main.rs:216-218 | immutable objects after the first do not change the package id |
| DeployMain.CapIds | ramm-sui-deploy/src/main.rs:291-299 | missing effects panics; succeeds iff exactly two created objects are owned directly by the client, returning their ids in order; otherwise the `assert!` panics |
| DeployMain.CapTypeName | ramm-sui-deploy/src/main.rs:304-323 | a failed query exits with 1; missing object data panics with `ObjectDataMissing`, a missing type with `ObjectTypeMissing`, a package type with `CapIsPackage`; it succeeds iff the type is a struct, giving the struct's name |
| DeployMain.AssignCapsAsWritten | ramm-sui-deploy/src/main.rs:328-332 | the result is always `(cap_ids[0], cap_ids[1])` |
| DeployMain.AsWrittenSwapsRoles | ramm-sui-deploy/src/main.rs:328-332 | when the first capability is the new-asset one, the written assignment names both capabilities wrongly |
| DeployMain.AsWrittenSwapsRolesExample | ramm-sui-deploy/src/main.rs:328-332 | a concrete pair of ids on which the written assignment makes the new-asset capability the admin one |
| DeployMain.AssignCaps | ramm-sui-deploy/src/main.rs:325-332 | succeeds iff the name is one of the two capability names, panics otherwise; the result is the pair in some order, the first listed id taken as admin iff the name is the admin one |
| DeployMain.AssignCapsRolesRight | ramm-sui-deploy/src/main.rs:301-332 | when one capability of each kind was minted, querying the first and inferring the second names both correctly |
| DeployMain.AssignCapsSwaps | ramm-sui-deploy/src/main.rs:326-331 | the admin name gives `(c0, c1)` and the new-asset name gives the swap `(c1, c0)` |
| DeployMain.AssignCapsBy | ramm-sui-deploy/src/main.rs:325-332 | the as-written assignment is always `(cap_ids[0], cap_ids[1])`; the corrected one is `AssignCaps` |
| DeployMain.ResolveCaps | ramm-sui-deploy/src/main.rs:264-332 | a failed creation exits with 1; a failure of `CapIds` or `CapTypeName` is passed on unchanged; otherwise the chosen assignment of the queried name |
| DeployMain.ResolveCapsCorrectedRolesRight | ramm-sui-deploy/src/main.rs:291-332 | with truthful object queries and one capability of each kind minted, the corrected step succeeds and names both capabilities correctly |
| DeployMain.ResolveCapsAsWrittenSwaps | ramm-sui-deploy/src/main.rs:291-332 | under the same conditions, the step as written names both capabilities wrongly whenever the new-asset one is listed first |
| DeployMain.ProgrammableTransactionBuilder.constructor | ramm-sui-deploy/src/main.rs:360 | a new builder holds no commands |
| DeployMain.ProgrammableTransactionBuilder.MoveCall | ramm-sui-deploy/src/main.rs:371-378 | appends one call whose arguments are the given pure inputs, and nothing else changes |
| DeployMain.ProgrammableTransactionBuilder.ProgrammableMoveCall | ramm-sui-deploy/src/main.rs:379-390 | appends one call with exactly the given arguments |
| DeployMain.ProgrammableTransactionBuilder.Finish | ramm-sui-deploy/src/main.rs:452 | the finished PTB holds the commands added so far |
| DeployMain.BuildRammPtb | ramm-sui-deploy/src/main.rs:359-452 | succeeds iff `asset_count <= assets.len()` and the first `asset_count` tags build; the PTB is then `new_ramm_internal(fee)`, `new_ramm(NestedResult(0,0..2))` and one `add_asset_to_ramm` per index; a failed tag exits with 1 and an index past the end panics, each exactly when it comes first |
| DeployMain.RammPtbCounts | ramm-sui-deploy/src/main.rs:370-448 | such a PTB holds exactly one `new_ramm_internal`, one `new_ramm`, `asset_count` `add_asset_to_ramm` calls and no `initialize_ramm` call |
| DeployMain.RammPtbAddsOnly | ramm-sui-deploy/src/main.rs:406-438 | every command after the two setup calls is `add_asset_to_ramm`, and every command targets the `ramm` module of the package |
| DeployMain.RammPtbAddAssetArguments | ramm-sui-deploy/src/main.rs:411-437 | each `add_asset_to_ramm` has one type argument and the arguments RAMM, aggregator, minimum trade amount, decimals, admin cap and new-asset cap of its asset, in that order |
| DeployMain.BuildRammTransaction | ramm-sui-deploy/src/main.rs:339-461 | a coin query failure exits with 1, no coin panics, a gas price failure exits with 1, and after them the PTB's own failures; it succeeds iff all of these pass and the tags build; on success the sender is the client, the only gas coin is the first coin, the budget is 100 000 000 and the gas price is the one queried |
| DeployMain.Deploy | ramm-sui-deploy/src/main.rs:146-461 | succeeds iff the publish, the package id, the capability step, the coin query (non-empty), the gas price and the tags all succeed; a failed publish or creation exits with 1, and each other step's failure is passed on in the order the steps run; on success the publish request uses budget 500 000 000, the package id is `PackageId` of its effects, `new_ramm` is called on it with the fee address and budget 100 000 000, the caps are `ResolveCaps`'s, and the PTB data has the first coin, the queried gas price and the shape above |
| Text.DecimalRoundTrip | ramm-sui-deploy/src/lib.rs:52-53 | the decimal text of a number reads back as that number |
| LegacyLib.FaucetDataFmt | ramm_sui_deploy/src/lib.rs:11-20 | panics at `tab_count` 0; otherwise appends exactly the lines header, package ID, module name |
| LegacyLib.DisplayFaucet | ramm_sui_deploy/src/lib.rs:23-27 | `Display for FaucetData` always panics, since it passes indentation 0 |
| LegacyLib.DisplayFaucetCorrected | ramm_sui_deploy/src/lib.rs:23-27 | at indentation 1 the rendering always succeeds with the three faucet lines; with single-line fields they split back as header at 0 tabs and fields at 1 tab |
| LegacyLib.FaucetLinesAreLines | ramm_sui_deploy/src/lib.rs:17-19 | with single-line fields, the three faucet lines hold no line break |
| LegacyLib.FaucetBlockShape | ramm_sui_deploy/src/lib.rs:14-19 | split at line breaks, the block is its three lines; the header is at `tab_count - 1` tabs, the fields at `tab_count` |
| LegacyLib.AssetCfgFmt | ramm_sui_deploy/src/lib.rs:38-56 | panics at `tab_count` 0; otherwise appends exactly header, asset name, aggregator, minimum trade amount and decimals |
| LegacyLib.DisplayAsset | ramm_sui_deploy/src/lib.rs:59-63 | `Display for AssetConfig` always panics, since it passes indentation 0 |
| LegacyLib.DisplayAssetCorrected | ramm_sui_deploy/src/lib.rs:59-63 | at indentation 1 the rendering always succeeds with the five asset lines; with single-line fields they split back as header at 0 tabs and fields at 1 tab |
| LegacyLib.AssetBlockShape | ramm_sui_deploy/src/lib.rs:46-55 | the block's lines hold no line break; the header is at `tab_count - 1` tabs, the fields at `tab_count` |
| LegacyLib.AssetBlocksAt | ramm_sui_deploy/src/lib.rs:84-86 | the blocks of n assets are 5n lines, the i-th group of five being the i-th asset's block |
| LegacyLib.AssetBlocksAreLines | ramm_sui_deploy/src/lib.rs:84-86 | with single-line fields, no line of the blocks holds a line break |
| LegacyLib.FmtConfig | ramm_sui_deploy/src/lib.rs:74-91 | appends exactly header, "\tasset list:", the asset blocks at 3, the faucet block at 2, the fee line and the unterminated count line |
| LegacyLib.BodyLinesAreLines | ramm_sui_deploy/src/lib.rs:82-88 | with single-line fields, no rendered line before the last holds a line break |
| LegacyLib.ConfigTextLines | ramm_sui_deploy/src/lib.rs:82-89 | split at its line breaks, the rendering gives back exactly its lines |
| LegacyLib.ConfigLayout | ramm_sui_deploy/src/lib.rs:82-89 | the line order is header, "\tasset list:", each asset block at 3 in list order, the faucet block at 2, the fee address, then the count with no trailing line break |

## Left out

- **Network, SDK and suibase calls** are left out: the suibase helpers, client construction, `get_object_with_options`, `get_coins`, `get_reference_gas_price` and `execute_transaction_block`. Their results are inputs of `Deploy`, `CapTypeName` and `BuildRammTransaction`.
- **Keystore loading and signing** are cryptography and file I/O. The exit-code-1 paths of those steps (main.rs:165-189, 250-256, 464-477) are not in `Deploy`.
- **Building the SDK transactions** (main.rs:146-163, 229-247) is left out. Their failure paths are not modelled, and `TxRequest` keeps only the sender, the call target, the arguments and the gas budget.
- **Move package compilation** (main.rs:112-127) is an external toolchain.
- **main.rs:47-106** is left out: command-line arguments, config file reading and TOML decoding, and workdir and RPC selection. TOML and clap parsing appear only as function parameters of `ParseRammCfg` and `Build`.
- **The config `main.rs` reads** is only partly visible. main.rs imports `RAMMDeploymentConfig` and `AssetConfig` from its own crate (ramm-sui-deploy/src/lib.rs:75), whose config has no `faucet_data` field, yet it reads `config.faucet_data` (main.rs:422) and calls `type_tag_from_faucet`, which no file of this model defines. So the PTB steps take the fee address, the asset count and the asset list separately, and type-tag construction is the parameter `typeTagOf`.
- **Text formats of ids, addresses and type tags** are not modelled, and neither are their parsers. They are opaque text without line breaks.
- **BCS encoding of pure arguments** is left out.
- **DeployMain.BuildRammPtb** does not model the builder's input slots or their deduplication. Pure arguments appear as `PureInput(value)` rather than `Input(k)`. So the unused `ptb.pure(fee_collection_address)` at main.rs:363 leaves no trace in the model.
- **Sui's `Owner == SuiAddress` comparison** (main.rs:296) is taken to hold only for an object owned directly by that address (`Sui.OwnedBy`).
- **ANSI-coloured rendering.** The `asset_cfg_fmt` and `Display` in ramm-sui-deploy/src/types.rs depend on the `colored` crate.
- **Formatter write errors** are not modelled. The formatter is a text buffer that accepts every write, so the `?` after each `write!` never returns early.
- **Debug versus release builds.** `tab_count - 1` at 0 panics in a debug build. In a release build it wraps to `usize::MAX`, and then `repeat` panics on capacity overflow. The model keeps the single outcome `SubtractWithOverflow` for both.
- **Other source files** are left out:
  - ramm_sui_deploy/src/main.rs only builds a client, publishes and exits.
  - ramm-sui-deploy/src/bin/ramm_sui_deploy.rs orchestrates library functions that are not part of this model. Its package-source branch (lines 28-57) matches on the `RAMMPkgAddrSrc` of ramm-sui-deploy/src/types.rs, the value `DeployTypes.DeAddrOrPath` produces.
  - ramm-sui-deploy/src/util.rs only sets up logging.
  - ramm-sui-deploy/src/error.rs appears only as the datatype `DeployLib.RAMMDeploymentError`.
- LegacyLib.ConfigLayout, LegacyLib.ConfigTextLines, LegacyLib.BodyLinesAreLines, LegacyLib.FaucetLinesAreLines, LegacyLib.FaucetBlockShape, LegacyLib.AssetBlockShape and LegacyLib.AssetBlocksAreLines: the layout is proved only for text fields without line breaks (`SingleLineFields`, `FaucetSingleLine`, `AssetSingleLine`). The source fields are free strings.
- LegacyLib.DisplayFaucetCorrected and LegacyLib.DisplayAssetCorrected: the rendered text is stated for every input, but its split into lines only for single-line fields.
- DeployLib.ConfigLayout, DeployLib.ConfigTextLines, DeployLib.BodyLinesAreLines and DeployLib.LibraryAddressLineIff: the layout is proved only when `target_env` has no line break.
- DeployMain.Deploy: the keystore, signing and transaction-building failures listed above are not among its failure cases.

## Findings

| source | as written | input that shows it | evidently intended | confidence | as-written member | corrected member |
|---|---|---|---|---|---|---|
| ramm-sui-deploy/src/main.rs:328-332 | both match arms are binding patterns, so the first always matches and the assignment is `(cap_ids[0], cap_ids[1])` whatever the queried type | creation effects that list the new-asset capability `0x1` before the admin capability `0x2`: `admin_cap_id` becomes `0x1`. Even with real comparisons, both arms (lines 329-330) return `(cap_ids[0], cap_ids[1])`, so fixing the patterns alone would not tell the capabilities apart | compare the name with `RAMMAdminCap` and `RAMMNewAssetCap`, swap for the new-asset one, and panic on any other name | high; not executed | DeployMain.AsWrittenSwapsRoles | DeployMain.AssignCapsRolesRight |
| ramm-sui-deploy/src/lib.rs:57-61 | `Display for AssetConfig` calls `asset_cfg_fmt(f, 0)`, and `0 - 1` on a `usize` panics | any asset rendered with `{}` | indentation 1: header at no indentation, fields one tab in | high; not executed | DeployLib.DisplayAsset | DeployLib.DisplayAssetCorrected |
| ramm_sui_deploy/src/lib.rs:23-27 | `Display for FaucetData` calls `faucet_data_fmt(f, 0)`, which underflows | any faucet data rendered with `{}` | indentation 1 | high; not executed | LegacyLib.DisplayFaucet | LegacyLib.DisplayFaucetCorrected |
| ramm_sui_deploy/src/lib.rs:59-63 | `Display for AssetConfig` calls `asset_cfg_fmt(f, 0)`, which underflows | any asset rendered with `{}` | indentation 1 | high; not executed | LegacyLib.DisplayAsset | LegacyLib.DisplayAssetCorrected |
| ramm-sui-deploy/src/types.rs:123 | `assets.len() as u8` keeps the length modulo 256 | 257 assets with `asset_count = 1` validate | compare `asset_count` with the exact length, as the field's invariant says | medium; not executed | DeployTypes.CountCheckIsModulo256 | DeployTypes.ValidateRammCfgExactIff |
