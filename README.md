# blessnet CLI bootstrap and dispatch, in Dafny

This project models the entry point of the `blessnet` command-line tool
(`main()` in `index.js`). Before any subcommand runs, the entry point does
four things:

- It classifies the raw argument vector into intent flags.
- If the local BLESS runtime binary is missing and none of `version`, `-v`,
  `options` or `build` is among the tokens, it asks whether to install the
  runtime. Then it either exits or downloads the runtime and exits.
- It short-circuits to `init`.
- Depending on whether `bls.toml` exists, it prints a project status report,
  asks whether to initialize a project, or hands the argument vector to the
  command router.

The file-system probes, the strings the prompt calls return and the result of
the runtime download are inputs. With those as inputs, the entry point is a
deterministic decision tree. The model is made of pure functions:

- `Answers`: the lower-casing of a prompt answer and the yes/y test.
- `Classifier`: the intent flags.
- `Reporter`: the content of the status report.
- `Bootstrap`: `Decide`, the decision tree. It returns the prompts and
  downloads performed, in order, and the leaf reached. A leaf is an exit
  status, "run init with this vector and return", "print the status report
  and exit 0", or "hand the vector to the router".

The model follows the code, with these consequences:

- The runtime gate (`index.js:53`) is checked before the `init`
  short-circuit (`index.js:76`). So `init` run without the runtime still
  asks to install it first.
- The `init` short-circuit precedes every later step: the bls.toml test,
  the report, the initialize prompt and the router. `version`, `-v`,
  `options` and `build` skip the runtime gate, so an invocation with both
  `version` and `init` runs init (`Bootstrap.ExemptInvocationsNeverPrompt`).
- `init` forwards the last token as the project name. So a bare
  `blessnet init` passes the token `init` itself
  (`Bootstrap.BareInitForwardsInitAsName`).
- The deploy-target test counts tokens. So `deploy --verbose` counts as a
  targeted deploy (`Classifier.DeployTargetIsALengthTest`). The model keeps
  this heuristic as written.

## Model

| member | source | states |
|---|---|---|
| `Answers.ToLower` | index.js:57 | lower-casing keeps the length of the answer and lower-cases it character by character |
| `Answers.AffirmativeSpellings` | index.js:57-59 | a string returned by the prompt call is accepted exactly when it is `y` or `yes` in any mix of cases; every other string is a refusal |
| `Answers.RefusalsDecline` | index.js:129-131 | the empty answer, `no` and `n` are refusals |
| `Classifier.Classify` | index.js:41-50 | each flag holds exactly when one of its keywords is a whole token of argv; the deploy-target flag holds exactly when `deploy` is a token and argv has more than 3 tokens, and it implies the deploy flag |
| `Classifier.OnlyKeywordsMatter` | index.js:41-50 | two vectors of equal length with the same keyword tokens classify identically; order, repetition and other tokens play no part |
| `Classifier.UnknownTokensClassifyNothing` | index.js:41-50 | a vector with no keyword token sets no flag |
| `Classifier.DeployTargetIsALengthTest` | index.js:50 | `deploy --verbose` and `deploy mytarget` both count as targeted deploys; a bare `deploy` does not |
| `Reporter.StatusOf` | index.js:95-106 | "Not Deployed" exactly when the deployment list is absent or empty; otherwise the first record's cid and creation time are reported, and the host line appears exactly when that record's host is a non-empty string |
| `Reporter.BuildReport` | index.js:85-121 | the report carries the descriptor's name, version and type and the login state; it says "Not Deployed" exactly when there is no first deployment; its deployment part is exactly `StatusOf` of the descriptor's list, so the first deployment's cid, creation time and host line are all fixed |
| `Reporter.OnlyFirstDeploymentMatters` | index.js:95-96 | descriptors agreeing on the first deployment record give the same report, whatever their later records |
| `Reporter.AbsentIsEmpty` | index.js:95 | an absent deployment list reports the same as an empty one |
| `Bootstrap.LastToken` | index.js:78 | `argv.slice(-1)` is the one-element list of the last token, or empty for an empty vector |
| `Bootstrap.Decide` | index.js:53-136 | the install prompt is shown exactly when the runtime is missing and none of version, options or build is classified; refusing it exits 1 with nothing else done; accepting it downloads once and exits 0 on success and 1 on failure; past that gate, `init` runs init with `["node","init", last token]`; the status report runs exactly when the runtime and bls.toml exist, there is no deploy target, `init` is absent and none of version, options, build, help, preview, manage or deploy is classified; the initialize prompt is shown exactly when the runtime exists, bls.toml does not, `init` is absent and none of version, help, options, registry, build or deploy target holds; refusing it exits 1 and accepting it runs init with `["node","init"]`; at most one question is asked; the router receives argv unchanged |
| `Bootstrap.RouterIsTheFallback` | index.js:125-194 | the router is reached exactly when no prompt was shown, `init` is absent and no status report was printed |
| `Bootstrap.RuntimeGateComesFirst` | index.js:53-73 | while the runtime gate applies, bls.toml, the descriptor, `init` and the second answer have no influence on the decision |
| `Bootstrap.InitComesBeforeDescriptor` | index.js:76-83 | past the runtime gate, an `init` token decides the outcome regardless of bls.toml, the descriptor and every answer |
| `Bootstrap.ExemptInvocationsNeverPrompt` | index.js:53-126 | with version, `-v`, options or build among the tokens, no question is asked and no report printed; init runs if `init` is a token, and otherwise the router is reached |
| `Bootstrap.TargetedDeployIsRouted` | index.js:82-84 | `node cli deploy mytarget` with bls.toml present goes straight to the router |
| `Bootstrap.BareInvocationInitializes` | index.js:125-134 | `node cli` without bls.toml asks to initialize, and `yes` runs init with no project name |
| `Bootstrap.BareInitForwardsInitAsName` | index.js:76-79 | `node cli init` runs init with the vector `["node","init","init"]` |
| `Bootstrap.ActionableSubcommandsSkipReport` | index.js:83-84 | with bls.toml present and no `init` token, help, preview, manage or deploy reach the router without a report |

## Left out

- The commander command tree, its registration of subcommands and its argument parsing (`index.js:138-194`). The model ends at "the router receives argv".
- The subcommands themselves (init, preview, manage, deploy, registry, wallet, account, build). They are modules this model does not include.
- The runtime download (`getRuntime`). It is network I/O; its success is a boolean input.
- The readline prompts. The string each prompt call returns is an input; how the prompt library turns keystrokes into that string is not modelled.
- The `existsSync` probes for the runtime binary, bls.toml and the auth token. They are boolean inputs.
- The parsing of bls.toml (`parseTomlConfig`). The descriptor it would return is an input. A parse error, which would propagate out of `main`, is not modelled.
- The construction of the home and platform paths (`index.js:18-23`), and the `-dev` version suffix. They depend on the environment.
- Presentation: colours, `console.table`, the boxed help banners, the fixed guidance lines of the report, and the locale formatting of the creation date. The date is carried as its raw value.
- `Answers.ToLower` maps only the ASCII letters A-Z. JavaScript's `toLowerCase` also maps other Unicode letters, which the model does not cover.
- The status reported after a router or init handoff. That depends on the subcommand and is not modelled.
