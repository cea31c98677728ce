# SafeInfo account status, modelled in Dafny

`client/src/components/Safe/SafeInfo.tsx` renders a card for a Safe smart account.
Beside its layout it holds a small piece of status logic, which this project models
and proves things about:

- **The chain probe** `isContractAddress` (module `ContractProbe`, `probe.dfy`). It asks the
  optional web3 provider for the code at the Safe's address and answers `code !== '0x'`;
  an error answers `false`. The outcome of the call (no provider, a returned hex string,
  a thrown error) is an input of the model.
- **The deployment cells** `isDeployed` / `isDeployLoading` (module `DeployStatus`,
  `deployment.dfy`). They start as `(false, true)`. Each polling tick runs
  `detectSafeIsDeployed`, which stores the probe's answer and clears the loading flag.
  `Step` and `Run` give this as values. The class `DeploymentCells` holds the two cells and
  their setters; its invariant `Valid()` ties the cells to `Run` over the answers received so far.
- **The derived view** (module `SafeInfoView`, `view.dfy`). The owner count and threshold
  come from the transaction service's answer, with JavaScript `|| 1` defaults. The aggregate
  loading flag is the OR of the two loading flags. `Render` describes which pieces of the
  card appear: logo or skeleton, the `threshold/owners` badge, the text skeleton,
  "Creation pending", and the balance with its `'0'` and `''` defaults.

Three details of the code that the model keeps:

- The defaults use `||`, which also replaces 0: a Safe reported with zero owners or a zero
  threshold shows 1.
- The probe compares the code with `'0x'`. With no provider, `code` is `undefined`, and
  `undefined !== '0x'`, so a missing provider reports the Safe as deployed.
- Nothing sets `isDeployLoading` back to `true`, not even a change of address, so the model
  has no such transition.

## Model

| member | source | states |
|---|---|---|
| ContractProbe.AwaitedCode | client/src/components/Safe/SafeInfo.tsx:155 | `provider?.getCode(address)` yields undefined exactly when there is no provider, and otherwise the returned string |
| ContractProbe.StrictNotEquals | client/src/components/Safe/SafeInfo.tsx:157 | `code !== '0x'` on a possibly undefined code: true exactly when the code is not the present string "0x" |
| ContractProbe.IsContractAddress | client/src/components/Safe/SafeInfo.tsx:150-161 | the probe says "deployed" exactly when there is no provider or the returned code is not "0x"; a thrown error and the empty code "0x" both say "not deployed" |
| DeployStatus.Step | client/src/components/Safe/SafeInfo.tsx:31-36 | a completed probe leaves the deployed flag equal to the probe's answer and loading off |
| DeployStatus.RunAppend | client/src/components/Safe/SafeInfo.tsx:31-38 | applying probe results in two batches gives the same state as applying them all at once |
| DeployStatus.Run | client/src/components/Safe/SafeInfo.tsx:31-38 | the state after the ticks' probe answers, in completion order: unchanged with no answers; loading is still on exactly when it was on before and no probe completed |
| DeployStatus.RunDeployed | client/src/components/Safe/SafeInfo.tsx:34 | after a non-empty run of probes the deployed flag is the last probe's answer |
| DeployStatus.InitialLoadingUntilFirstProbe | client/src/components/Safe/SafeInfo.tsx:26-36 | from `(false, true)`: loading until the first probe completes, and deployed exactly when the latest answer was "deployed" |
| DeployStatus.SettledStaysSettled | client/src/components/Safe/SafeInfo.tsx:27-35 | once one probe has completed, no later sequence of probe results turns loading back on |
| DeployStatus.DeploymentCells.constructor | client/src/components/Safe/SafeInfo.tsx:26-27 | the cells start as not deployed and loading, with no probe answers yet |
| DeployStatus.DeploymentCells.SetIsDeployed | client/src/components/Safe/SafeInfo.tsx:34 | sets the deployed cell and only that cell |
| DeployStatus.DeploymentCells.SetIsDeployLoading | client/src/components/Safe/SafeInfo.tsx:35 | sets the loading cell and only that cell |
| DeployStatus.DeploymentCells.DetectSafeIsDeployed | client/src/components/Safe/SafeInfo.tsx:31-36 | stores the probe's answer and clears loading, changes nothing else, appends the answer to the history and keeps the cells equal to the run over that history |
| SafeInfoView.NumberOr | client/src/components/Safe/SafeInfo.tsx:48-49 | the or-default of JavaScript on an optional number: the value when present and non-zero, else the default |
| SafeInfoView.StringOr | client/src/components/Safe/SafeInfo.tsx:100-101 | the or-default of JavaScript on an optional string: the value when present and non-empty, else the default |
| SafeInfoView.OwnerCount | client/src/components/Safe/SafeInfo.tsx:48 | the number of owners fetched, or 1 when nothing was fetched or the list is empty; never below 1 |
| SafeInfoView.Threshold | client/src/components/Safe/SafeInfo.tsx:49 | the fetched threshold, or 1 when nothing was fetched or the threshold is 0; never below 1 |
| SafeInfoView.Derive | client/src/components/Safe/SafeInfo.tsx:48-50 | owners and threshold are the `OwnerCount` and `Threshold` of the fetched info, so at least 1; aggregate loading holds exactly when the deployment check or the info fetch is loading |
| SafeInfoView.BalanceOrZero | client/src/components/Safe/SafeInfo.tsx:100 | the balance handed to the formatter is the known balance, or "0" when it is missing or empty; never empty |
| SafeInfoView.TokenSymbol | client/src/components/Safe/SafeInfo.tsx:101 | the chain's token symbol, or "" when there is no chain |
| SafeInfoView.ShowsLoadingSkeletons | client/src/components/Safe/SafeInfo.tsx:57-95 | the skeletons (lines 57 and 83) and the balance (line 95) are exact complements: the skeletons show exactly when the balance does not |
| SafeInfoView.ShowsSettingsLabel | client/src/components/Safe/SafeInfo.tsx:69 | the `threshold/owners` badge never shows together with "Creation pending" |
| SafeInfoView.ShowsCreationPending | client/src/components/Safe/SafeInfo.tsx:85 | "Creation pending" shows only when the deployment check has finished and the Safe is not deployed |
| SafeInfoView.BalanceShownWhenBothSettled | client/src/components/Safe/SafeInfo.tsx:95 | for the card's inputs, the balance shows exactly when the deployment check has finished and the info fetch is not loading |
| SafeInfoView.Render | client/src/components/Safe/SafeInfo.tsx:53-108 | logo and logo skeleton are exclusive; the balance shows exactly when the skeletons do not; the badge shows exactly when deployed, "Creation pending" exactly when not deployed and the check has finished, never both; the badge carries `Threshold` and `OwnerCount` of the fetched info (each at least 1); the balance label carries `BalanceOrZero` of the balance and `TokenSymbol` of the chain |
| SafeInfoView.RenderAfterProbes | client/src/components/Safe/SafeInfo.tsx:69-85 | after probes from mount, "Creation pending" shows exactly when the latest answer was "not deployed" and the badge exactly when it was "deployed"; before any answer the balance is hidden and the skeletons show |
| SafeInfoView.LoadingAfterFirstProbe | client/src/components/Safe/SafeInfo.tsx:50 | after the first probe has completed, the card is loading exactly when the info fetch is loading |

## Left out

- DeployStatus.Step: `setIsDeployed` and `setIsDeployLoading` (lines 34-35) are taken as one
  batched update after the `await`, as React 18 batches them on a `createRoot` root. Without that
  batching (legacy `ReactDOM.render`, React 17) a first answer "deployed" renders once as
  `(true, true)`, with the badge beside both skeletons. `Run` never reaches that state, so
  `InitialLoadingUntilFirstProbe` and `RenderAfterProbes` do not cover it; `Render`'s contract
  still holds for it, since it holds for every state.

- The polling schedule (`usePolling`), the abortable fetch (`useApi`) and the request itself
  (`getSafeInfo`): their files are not part of this model. The probe outcomes and the fetch's
  result and loading flag are inputs; probe answers are applied in completion order.
- Stale-response suppression, at most one probe in flight, and stopping on teardown: nothing in
  `SafeInfo.tsx` does these, so the model has none of them.
- `provider.getCode` and the node behind it are left out; only their outcome is modelled.
- `utils.formatEther` (line 100): the balance label keeps the raw amount after the `'0'` default;
  the decimal formatting is not modelled.
- The badge text `{threshold}/{owners}` is kept as its two numbers, not as a string.
- Layout, MUI components, tooltips, theme and the styled components (lines 113-147): presentation only.
- `useAccountAbstraction` and `useTheme`: they only supply the provider, chain, balance and theme, which are inputs here.
