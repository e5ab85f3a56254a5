/**
 * Two pure pieces of the testnet deployment script: how the initialiser arguments of the
 * sale are resolved and guarded before deployment, and how the file that records each
 * deployed address is named (`./deploys/<network>/<name>[-<version>]`). The directory of
 * record files is modelled as a map from path to contents.
 */
module Deploy {
  import opened Wrappers
  import opened Erc20

  /** The errors the script throws before deploying. */
  datatype DeployError = PaymentTokenZero | DivinityCoinZero | BuyPriceZero | SellPriceZero

  function Message(e: DeployError): (r: string) {
    match e
    case PaymentTokenZero => "Payment token address is zero"
    case DivinityCoinZero => "Divinity coin address is zero"
    case BuyPriceZero => "Buy price per unit is zero"
    case SellPriceZero => "Sell price per unit is zero"
  }

  /** Every guard throws its own message. */
  lemma MessagesDistinct(e: DeployError, e': DeployError)
    ensures Message(e) == Message(e') ==> e == e'
  {
  }

  /** The arguments of initialize(address,address,address,uint256,uint256), in call order. */
  datatype InitArgs = InitArgs(divinityCoin: Address, paymentToken: Address, treasury: Address,
                               buyPricePerUnit: nat, sellPricePerUnit: nat)

  /**
   * The guards run in source order: payment token, reward token, the treasury default
   * (the deploying account `deployer` when none is configured), buy price, sell price.
   */
  function ResolveInitArgs(paymentToken: Address, divinityCoin: Address, configuredTreasury: Address,
                           deployer: Address, buyPrice: nat, sellPrice: nat): (r: Result<InitArgs, DeployError>)
    ensures r.Ok? <==> paymentToken != ZERO_ADDRESS && divinityCoin != ZERO_ADDRESS && buyPrice > 0 && sellPrice > 0
    ensures r.Ok? ==> && r.value.divinityCoin == divinityCoin && r.value.paymentToken == paymentToken
                      && r.value.buyPricePerUnit == buyPrice && r.value.sellPricePerUnit == sellPrice
  {
    if paymentToken == ZERO_ADDRESS then Err(PaymentTokenZero)
    else if divinityCoin == ZERO_ADDRESS then Err(DivinityCoinZero)
    else
      var treasury := if configuredTreasury == ZERO_ADDRESS then deployer else configuredTreasury;
      if buyPrice == 0 then Err(BuyPriceZero)
      else if sellPrice == 0 then Err(SellPriceZero)
      else Ok(InitArgs(divinityCoin, paymentToken, treasury, buyPrice, sellPrice))
  }

  /** The first failing guard decides the error. */
  lemma ResolveCheckOrder(paymentToken: Address, divinityCoin: Address, configuredTreasury: Address,
                          deployer: Address, buyPrice: nat, sellPrice: nat)
    ensures var r := ResolveInitArgs(paymentToken, divinityCoin, configuredTreasury, deployer, buyPrice, sellPrice);
      && (r == Err(PaymentTokenZero) <==> paymentToken == ZERO_ADDRESS)
      && (r == Err(DivinityCoinZero) <==> paymentToken != ZERO_ADDRESS && divinityCoin == ZERO_ADDRESS)
      && (r == Err(BuyPriceZero) <==> paymentToken != ZERO_ADDRESS && divinityCoin != ZERO_ADDRESS && buyPrice == 0)
      && (r == Err(SellPriceZero) <==> paymentToken != ZERO_ADDRESS && divinityCoin != ZERO_ADDRESS && buyPrice > 0 && sellPrice == 0)
  {
  }

  /** A zero configured treasury is replaced by the deploying account; any other is kept. */
  lemma TreasuryDefault(paymentToken: Address, divinityCoin: Address, configuredTreasury: Address,
                        deployer: Address, buyPrice: nat, sellPrice: nat)
    requires ResolveInitArgs(paymentToken, divinityCoin, configuredTreasury, deployer, buyPrice, sellPrice).Ok?
    ensures var args := ResolveInitArgs(paymentToken, divinityCoin, configuredTreasury, deployer, buyPrice, sellPrice).value;
      && (configuredTreasury == ZERO_ADDRESS ==> args.treasury == deployer)
      && (configuredTreasury != ZERO_ADDRESS ==> args.treasury == configuredTreasury)
  {
  }

  /**
   * Resolved arguments hold no zero value when the deploying account is not the zero address:
   * the two addresses and the two prices are guarded, and the treasury is either the
   * configured non-zero one or the deploying account.
   */
  lemma ResolvedArgsAreNonZero(paymentToken: Address, divinityCoin: Address, configuredTreasury: Address,
                               deployer: Address, buyPrice: nat, sellPrice: nat)
    requires deployer != ZERO_ADDRESS
    requires ResolveInitArgs(paymentToken, divinityCoin, configuredTreasury, deployer, buyPrice, sellPrice).Ok?
    ensures var args := ResolveInitArgs(paymentToken, divinityCoin, configuredTreasury, deployer, buyPrice, sellPrice).value;
      && args.divinityCoin != ZERO_ADDRESS && args.paymentToken != ZERO_ADDRESS && args.treasury != ZERO_ADDRESS
      && args.buyPricePerUnit > 0 && args.sellPricePerUnit > 0
  {
  }

  /** "-<version>", or nothing when the version is empty. */
  function VersionSuffix(version: string): (r: string) {
    if version == "" then "" else "-" + version
  }

  /** The record file of a deployment within ./deploys/<network>. */
  function RecordName(name: string, version: string): (r: string) {
    name + VersionSuffix(version)
  }

  function DeploysDirectory(network: string): (r: string) {
    "./deploys/" + network
  }

  /**
   * The path both the writer and the reader of deployment records build: a file directly
   * inside the network's deploys directory, named after the deployment.
   */
  function RecordPath(network: string, name: string, version: string): (r: string)
    ensures var dir := DeploysDirectory(network) + "/";
      && |dir| <= |r| && r[..|dir|] == dir
      && ('/' !in name && '/' !in version ==> '/' !in r[|dir|..])
  {
    DeploysDirectory(network) + "/" + RecordName(name, version)
  }

  /** The characters of `s` before its first '-'. */
  function UpToHyphen(s: string): (r: string)
    ensures |r| <= |s| && r == s[..|r|] && '-' !in r
    ensures |r| < |s| ==> s[|r|] == '-'
  {
    if s == "" || s[0] == '-' then "" else [s[0]] + UpToHyphen(s[1..])
  }

  /** Reads a record file name back as (name, version). */
  function ParseRecordName(file: string): (r: (string, string)) {
    var name := UpToHyphen(file);
    (name, if |name| < |file| then file[|name| + 1..] else "")
  }

  lemma {:induction false} UpToHyphenOfJoin(name: string, rest: string)
    requires '-' !in name && (rest == "" || rest[0] == '-')
    ensures UpToHyphen(name + rest) == name
  {
    if name == "" {
      assert name + rest == rest;
    } else {
      assert (name + rest)[0] == name[0];
      assert (name + rest)[1..] == name[1..] + rest;
      assert '-' !in name[1..] by {
        forall i | 0 <= i < |name[1..]| ensures name[1..][i] != '-' {
          assert name[1..][i] == name[i + 1];
        }
      }
      UpToHyphenOfJoin(name[1..], rest);
    }
  }

  /** A name without '-' and its version are recovered from the record file name. */
  lemma RecordNameRoundTrip(name: string, version: string)
    requires '-' !in name
    ensures ParseRecordName(RecordName(name, version)) == (name, version)
  {
    var file := RecordName(name, version);
    UpToHyphenOfJoin(name, VersionSuffix(version));
    if version != "" {
      assert file[|name| + 1..] == version;
    }
  }

  /** Two deployments whose names have no '-' share a record file only if name and version agree. */
  lemma RecordPathInjective(network: string, name: string, version: string, name': string, version': string)
    requires '-' !in name && '-' !in name'
    requires RecordPath(network, name, version) == RecordPath(network, name', version')
    ensures name == name' && version == version'
  {
    var prefix := DeploysDirectory(network) + "/";
    assert RecordName(name, version) == RecordPath(network, name, version)[|prefix|..];
    assert RecordName(name', version') == RecordPath(network, name', version')[|prefix|..];
    RecordNameRoundTrip(name, version);
    RecordNameRoundTrip(name', version');
  }

  /** A "-" in a name lets two different deployments share one record file. */
  lemma HyphenatedNamesCollide(network: string)
    ensures RecordPath(network, "A-b", "") == RecordPath(network, "A", "b")
  {
  }

  /** The record directory: file path to file contents. */
  type RecordStore = map<string, string>

  /** writeDeploymentAddress: (over)writes the record of `name` at `version` with `address`. */
  function WriteDeploymentAddress(store: RecordStore, network: string, name: string,
                                  address: string, version: string): (r: RecordStore)
    ensures var path := RecordPath(network, name, version);
      && r.Keys == store.Keys + {path} && r[path] == address
      && forall p :: p in store && p != path ==> r[p] == store[p]
  {
    store[RecordPath(network, name, version) := address]
  }

  /** existingDeploymentAddress: the recorded address of `name` at `version`, if there is one. */
  function ExistingDeploymentAddress(store: RecordStore, network: string, name: string,
                                     version: string): (r: Option<string>)
    ensures var path := RecordPath(network, name, version);
      && (r.Some? <==> path in store)
      && (r.Some? ==> r.value == store[path])
  {
    var path := RecordPath(network, name, version);
    if path in store then Some(store[path]) else None
  }

  /** Reading a record back after writing it gives the address that was written. */
  lemma ReadAfterWrite(store: RecordStore, network: string, name: string, address: string, version: string)
    ensures ExistingDeploymentAddress(WriteDeploymentAddress(store, network, name, address, version),
                                      network, name, version) == Some(address)
  {
  }

  /** Writing the record of one deployment leaves every other deployment's record as it was. */
  lemma WritesDoNotInterfere(store: RecordStore, network: string, name: string, address: string, version: string,
                             name': string, version': string)
    requires '-' !in name && '-' !in name'
    requires name != name' || version != version'
    ensures ExistingDeploymentAddress(WriteDeploymentAddress(store, network, name, address, version),
                                      network, name', version')
         == ExistingDeploymentAddress(store, network, name', version')
  {
    if RecordPath(network, name, version) == RecordPath(network, name', version') {
      RecordPathInjective(network, name, version, name', version');
    }
  }
}
