# Phiremock server: request dispatch, expectation reload, home path

A Dafny model of three pieces of the Phiremock HTTP mock server:

- **Dispatch of a mocked request** (`SearchRequestAction`). The request is appended to the request
  history. Then the stored expectations are walked in insertion order with a nullable "last found"
  candidate. A matching expectation replaces the candidate only when nothing is held yet or its
  priority is strictly greater. If nothing matched, the answer is 404 "Not Found". Otherwise the
  response strategy builds the answer for the selected expectation. The model proves that the result
  is absent exactly when no expectation matches. Otherwise it is a matching expectation of maximal
  priority, the earliest one among ties (`IsBestMatchAt`, a reference definition independent of the
  loop). The loop is proved equal to a left fold of the step function.
- **Reload of preconfigured expectations** (`ReloadPreconfiguredExpectationsAction`). The live
  expectation store is cleared, every backup expectation is re-added in backup order, and the answer
  is 200. Afterwards the live store equals the backup, element for element. The backup is unchanged,
  and nothing else is touched. The source's log line says that scenarios and the request history are
  cleared too. The action holds no reference to those stores, so the model follows the code and
  changes only the live expectations. If both stores were one object, the clear would leave it empty.
  `Execute` states that case too, so it needs no precondition.
- **Home path resolution** (`HomePathService::getHomePath`). The environment is an explicit map. The
  result is `HOME`, else `USERPROFILE`, else `HOMEDRIVE` followed by `HOMEPATH`, else an error.
  "Empty" follows PHP `empty()`: an unset variable, `""` and `"0"` all fall through.

The stores are classes whose `seq` field the actions update in place (`ExpectationStorage`,
`RequestStorage`). The comparator and the response strategy are function-valued fields of the
action, so every proof holds for any pure comparator and any strategy. A stored expectation keeps
its request conditions and its response recipe as opaque JSON text; only its integer priority takes
part in selection.

## Model

| member | source | states |
|---|---|---|
| `SearchRequest.NextMatchingExpectation` | src/Actions/SearchRequestAction.php:91-100 | The candidate is kept or replaced by the inspected expectation. A non-match changes nothing, and a replacement always matches. Once held, a candidate stays held and its priority never drops. The result dominates a matching inspected expectation. An equal-priority match does not displace the held one. |
| `SearchRequest.BestMatchAbsentIff` | src/Actions/SearchRequestAction.php:76-100 | The left fold of the step over the store, starting from absent, is absent iff no stored expectation matches. |
| `SearchRequest.BestMatchIsBest` | src/Actions/SearchRequestAction.php:76-100 | Returns a position k such that, when the fold is present, it is the expectation at k, which matches, has maximal priority among matches, and beats every earlier match strictly. |
| `SearchRequest.BestMatchAtIsUnique` | src/Actions/SearchRequestAction.php:94 | At most one position meets that reference definition, so the selection is deterministic. |
| `SearchRequest.TieGoesToEarliest` | src/Actions/SearchRequestAction.php:94 | With matches A(1), B(5), C(5) stored in that order, B is selected. |
| `SearchRequest.SearchRequestAction.SearchForMatchingExpectation` | src/Actions/SearchRequestAction.php:76-84 | The loop returns the fold's result. It is absent iff nothing matches; otherwise it is the earliest maximal-priority match. |
| `SearchRequest.SearchRequestAction.Execute` | src/Actions/SearchRequestAction.php:57-74 | The request is appended to the history exactly once, and the expectation store is unchanged. With no match the answer is the response with status 404 "Not Found". Otherwise it is the strategy's response for the best match. |
| `SearchRequest.SearchRequestAction.constructor` | src/Actions/SearchRequestAction.php:43-55 | The action keeps the stores, comparator and strategy it is given. |
| `Storage.RequestStorage.AddRequest` | src/Actions/SearchRequestAction.php:61 | The request is appended at the end of the history. |
| `Storage.ExpectationStorage.ListExpectations` | src/Actions/SearchRequestAction.php:79 | Returns the stored expectations in insertion order, without changing the store. |
| `Storage.ExpectationStorage.ClearExpectations` | src/Actions/ReloadPreconfiguredExpectationsAction.php:53 | The store becomes empty. |
| `Storage.ExpectationStorage.AddExpectation` | src/Actions/ReloadPreconfiguredExpectationsAction.php:55 | The expectation is appended at the end of the store. |
| `ReloadExpectations.ReloadPreconfiguredExpectationsAction.constructor` | src/Actions/ReloadPreconfiguredExpectationsAction.php:41-49 | The action keeps the live store and the backup it is given. |
| `ReloadExpectations.ReloadPreconfiguredExpectationsAction.Execute` | src/Actions/ReloadPreconfiguredExpectationsAction.php:51-60 | The answer is the response with status 200. For distinct stores, the live store equals the old backup in order and the backup is unchanged. For one shared store, the store ends empty. Only the live store may change. |
| `ReloadExpectations.ReloadIsIdempotent` | src/Actions/ReloadPreconfiguredExpectationsAction.php:53-56 | Reloading twice leaves the live store equal to the backup, as reloading once does. |
| `ReloadExpectations.ReloadDiscardsAddedExpectations` | src/Actions/ReloadPreconfiguredExpectationsAction.php:53-56 | An expectation added before a reload is gone afterwards. The live store equals the backup. |
| `HomePath.GetHomePath` | src/Utils/HomePathService.php:27-46 | It fails, with the source's message, iff `HOME`, `USERPROFILE` and `HOMEPATH` are all empty in PHP's sense. A successful path is never empty in that sense. |
| `HomePath.HomeTakesPrecedence` | src/Utils/HomePathService.php:29-33 | A non-empty `HOME` is the result, whatever the other variables hold. |
| `HomePath.UserProfileIsSecond` | src/Utils/HomePathService.php:35-38 | With `HOME` empty, a non-empty `USERPROFILE` is the result, whatever `HOMEDRIVE` and `HOMEPATH` hold. |
| `HomePath.HomeDriveAndPathAreThird` | src/Utils/HomePathService.php:40-43 | With both of those empty and `HOMEPATH` non-empty, the result is `HOMEDRIVE` then `HOMEPATH`. An unset drive contributes nothing. |
| `HomePath.EmptyValuesFallThrough` | src/Utils/HomePathService.php:31-41 | Setting a checked variable to `""` or `"0"` gives the same result as leaving it unset. |

## Left out

- Logging: the log calls, `getLoggableRequest` and `getLoggableResponse` (src/Actions/SearchRequestAction.php:102-131) produce log text only.
- The comparator's conditions (method, URL, headers, body, scenario state) and the response strategies (static, delayed, proxied, templated): their code is not part of this model. They are arbitrary pure functions here.
- SearchRequestAction.Execute: that the request is recorded before matching is not observable in the model, because the comparator here cannot read the request history.
- The implementations of the expectation, request and scenario stores are not part of this model. The stores are plain sequences; locking and concurrent access are not modelled.
- Scenario state: none of the modelled code reads or writes it.
- The PSR-7 response library may fill in the standard reason phrase for `withStatus(200)`. The model keeps the empty reason passed at src/Actions/ReloadPreconfiguredExpectationsAction.php:59.
- HomePath.GetHomePath: returns the path string. The `Directory` wrapper class is not part of this model.
- The server command src/Cli/Commands/PhiremockServerCommand.php (option parsing, configuration, start-up, signal and error handlers) is process bootstrap and I/O.
