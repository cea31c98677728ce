/**
 * What SafeInfo.tsx derives from its state on every render: the owner count and
 * threshold with their `|| 1` defaults, the aggregate loading flag, and which
 * pieces of the card are shown.
 */
module SafeInfoView {
  import opened Optional
  import opened DeployStatus

  /** The Safe transaction service's answer: the owners and the signing threshold. */
  datatype SafeInfo = SafeInfo(owners: seq<string>, threshold: nat)

  /** The connected chain; only its native token symbol is read here. */
  datatype Chain = Chain(token: string)

  /** JavaScript's `x || d` on a number that may be undefined: undefined and 0 are falsy. */
  function NumberOr(x: Option<nat>, d: nat): (r: nat)
    ensures r == d || (x == Some(r) && r != 0)
    ensures x.Some? && x.value != 0 ==> r == x.value
  {
    if x.Some? && x.value != 0 then x.value else d
  }

  /** JavaScript's `x || d` on a string that may be undefined: undefined and "" are falsy. */
  function StringOr(x: Option<string>, d: string): (r: string)
    ensures r == d || (x == Some(r) && r != "")
    ensures x.Some? && x.value != "" ==> r == x.value
  {
    if x.Some? && x.value != "" then x.value else d
  }

  /** `safeInfo?.owners.length || 1`. */
  function OwnerCount(safeInfo: Option<SafeInfo>): (owners: nat)
    ensures owners >= 1
    ensures safeInfo.Some? && |safeInfo.value.owners| > 0 ==> owners == |safeInfo.value.owners|
    ensures safeInfo.None? || |safeInfo.value.owners| == 0 ==> owners == 1
  {
    var length := match safeInfo case None => None case Some(info) => Some(|info.owners|);
    NumberOr(length, 1)
  }

  /** `safeInfo?.threshold || 1`. */
  function Threshold(safeInfo: Option<SafeInfo>): (threshold: nat)
    ensures threshold >= 1
    ensures safeInfo.Some? && safeInfo.value.threshold > 0 ==> threshold == safeInfo.value.threshold
    ensures safeInfo.None? || safeInfo.value.threshold == 0 ==> threshold == 1
  {
    var t := match safeInfo case None => None case Some(info) => Some(info.threshold);
    NumberOr(t, 1)
  }

  /** `safeBalance || '0'`: the amount handed to the formatter. */
  function BalanceOrZero(safeBalance: Option<string>): (amount: string)
    ensures amount != ""
    ensures safeBalance.Some? && safeBalance.value != "" ==> amount == safeBalance.value
    ensures safeBalance.None? || safeBalance.value == "" ==> amount == "0"
  {
    StringOr(safeBalance, "0")
  }

  /** `chain?.token || ''`: the token symbol, empty when there is no chain. */
  function TokenSymbol(chain: Option<Chain>): (symbol: string)
    ensures chain.Some? ==> symbol == chain.value.token
    ensures chain.None? ==> symbol == ""
  {
    var token := match chain case None => None case Some(c) => Some(c.token);
    StringOr(token, "")
  }

  /** The values the render reads. */
  datatype View = View(owners: nat, threshold: nat, isDeployed: bool, isDeployLoading: bool, isLoading: bool)

  /** The derivations made before rendering, from the deployment cells and the fetch result. */
  function Derive(deploy: DeployState, safeInfo: Option<SafeInfo>, isGetSafeInfoLoading: bool): (v: View)
    ensures v.owners == OwnerCount(safeInfo) && v.threshold == Threshold(safeInfo)
    ensures v.isLoading <==> deploy.isDeployLoading || isGetSafeInfoLoading
    ensures v.isDeployed == deploy.isDeployed && v.isDeployLoading == deploy.isDeployLoading
  {
    View(OwnerCount(safeInfo), Threshold(safeInfo), deploy.isDeployed, deploy.isDeployLoading,
         deploy.isDeployLoading || isGetSafeInfoLoading)
  }

  /** The balance label: the raw amount (before ether formatting) and the token symbol. */
  datatype AmountLabel = AmountLabel(amount: string, tokenSymbol: string)

  /** The badge text `{threshold}/{owners}`, kept as its two numbers. */
  datatype SettingsLabel = SettingsLabel(threshold: nat, owners: nat)

  /** Which pieces the card shows, and with what content. */
  datatype Screen = Screen(
    logoSkeleton: bool,
    logo: bool,
    settings: Option<SettingsLabel>,
    address: string,
    textSkeleton: bool,
    creationPending: bool,
    balance: Option<AmountLabel>)

  /** The loading skeletons (lines 57 and 83): shown exactly when the balance is not. */
  function ShowsLoadingSkeletons(isDeployed: bool, isDeployLoading: bool, isLoading: bool): (shown: bool)
    ensures shown != ShowsBalance(isDeployed, isDeployLoading, isLoading)
  {
    isLoading
  }

  /** The `threshold/owners` badge (line 69): never together with "Creation pending". */
  function ShowsSettingsLabel(isDeployed: bool, isDeployLoading: bool, isLoading: bool): (shown: bool)
    ensures shown ==> !ShowsCreationPending(isDeployed, isDeployLoading, isLoading)
  {
    isDeployed
  }

  /** "Creation pending" (line 85): only once the deployment check has finished, and only when not deployed. */
  function ShowsCreationPending(isDeployed: bool, isDeployLoading: bool, isLoading: bool): (shown: bool)
    ensures shown ==> !isDeployLoading
    ensures shown ==> !isDeployed
  {
    !isDeployed && !isDeployLoading
  }

  /** The balance (line 95). */
  function ShowsBalance(isDeployed: bool, isDeployLoading: bool, isLoading: bool): bool
  {
    !isLoading
  }

  /** The whole render of the card for one set of inputs. */
  function Render(deploy: DeployState, safeInfo: Option<SafeInfo>, isGetSafeInfoLoading: bool,
                  safeAddress: string, safeBalance: Option<string>, chain: Option<Chain>): (s: Screen)
    // the logo or its skeleton, never both; the text skeleton goes with the logo skeleton
    ensures s.logoSkeleton != s.logo && s.textSkeleton == s.logoSkeleton
    ensures s.logoSkeleton <==> deploy.isDeployLoading || isGetSafeInfoLoading
    // the balance shows exactly when the skeletons do not
    ensures s.balance.Some? <==> !s.textSkeleton
    // the settings badge and "Creation pending" are never shown together
    ensures !(s.settings.Some? && s.creationPending)
    ensures s.settings.Some? <==> deploy.isDeployed
    ensures s.creationPending <==> !deploy.isDeployed && !deploy.isDeployLoading
    ensures s.settings.Some? ==> s.settings.value == SettingsLabel(Threshold(safeInfo), OwnerCount(safeInfo))
    ensures s.balance.Some? ==> s.balance.value.amount == BalanceOrZero(safeBalance)
    ensures s.balance.Some? ==> s.balance.value.tokenSymbol == TokenSymbol(chain)
    ensures s.address == safeAddress
  {
    var v := Derive(deploy, safeInfo, isGetSafeInfoLoading);
    Screen(
      logoSkeleton := ShowsLoadingSkeletons(v.isDeployed, v.isDeployLoading, v.isLoading),
      logo := !ShowsLoadingSkeletons(v.isDeployed, v.isDeployLoading, v.isLoading),
      settings := if ShowsSettingsLabel(v.isDeployed, v.isDeployLoading, v.isLoading)
                  then Some(SettingsLabel(v.threshold, v.owners)) else None,
      address := safeAddress,
      textSkeleton := ShowsLoadingSkeletons(v.isDeployed, v.isDeployLoading, v.isLoading),
      creationPending := ShowsCreationPending(v.isDeployed, v.isDeployLoading, v.isLoading),
      balance := if ShowsBalance(v.isDeployed, v.isDeployLoading, v.isLoading)
                 then Some(AmountLabel(BalanceOrZero(safeBalance), TokenSymbol(chain))) else None)
  }

  /** The balance shows exactly when the deployment check and the info fetch have both finished. */
  lemma BalanceShownWhenBothSettled(deploy: DeployState, safeInfo: Option<SafeInfo>, isGetSafeInfoLoading: bool)
    ensures var v := Derive(deploy, safeInfo, isGetSafeInfoLoading);
      ShowsBalance(v.isDeployed, v.isDeployLoading, v.isLoading) <==> !deploy.isDeployLoading && !isGetSafeInfoLoading
  {
  }

  /**
   * The card after a run of probes from mount: "Creation pending" shows exactly
   * when the latest probe answered "not deployed", and the badge exactly when it
   * answered "deployed"; before any probe completes the balance is hidden.
   */
  lemma {:induction false} RenderAfterProbes(results: seq<bool>, safeInfo: Option<SafeInfo>, isGetSafeInfoLoading: bool,
                          safeAddress: string, safeBalance: Option<string>, chain: Option<Chain>)
    ensures var s := Render(Run(Initial, results), safeInfo, isGetSafeInfoLoading, safeAddress, safeBalance, chain);
      && (s.creationPending <==> results != [] && !results[|results| - 1])
      && (s.settings.Some? <==> results != [] && results[|results| - 1])
      && (results == [] ==> s.balance.None? && s.logoSkeleton && s.textSkeleton)
  {
    InitialLoadingUntilFirstProbe(results);
  }

  /** Once a probe has completed, only the metadata fetch can bring the skeletons back (a corollary of `Run` and `Derive`). */
  lemma LoadingAfterFirstProbe(first: seq<bool>, later: seq<bool>, safeInfo: Option<SafeInfo>,
                               isGetSafeInfoLoading: bool)
    requires first != []
    ensures Derive(Run(Initial, first + later), safeInfo, isGetSafeInfoLoading).isLoading <==> isGetSafeInfoLoading
  {
  }
}
