# Hummingbot: Upbit pair validation and the Binance perpetual listen-key session

This project models two pieces of the hummingbot trading client in Dafny.

- **Upbit pair validation** (`UpbitUtils`). The Upbit connector decides whether a trading pair may be traded from the exchange's information record. The pair qualifies when its status is `"TRADING"` and its permissions contain `"SPOT"`. The connector also declares default fees of 0.1 % for makers and takers, with the buy fee deducted from returns.
- **Binance perpetual user stream** (`BinancePerpetualUserStream`). The user-data-stream source for Binance USD-M futures keeps an authenticated push channel open:
  - it obtains a listen key;
  - it starts one reader task for that key;
  - it renews the key once per 60-second tick;
  - when the exchange refuses a renewal, it drops both the key and the reader so that the next pass starts a fresh session;
  - on exit it cancels the reader and forgets both.

  The websocket generator `ws_messages` yields each message, pings after 30 silent seconds, stops on a pong timeout or a closed connection, and closes the socket on every way out.

`PyJson` holds what both parts share:
- decoded JSON values, with `JNull` standing for Python's `None`;
- Python's `dict.get`;
- Python's `in` operator with a string on the left: list membership, dict keys, substring of a `str`, and `TypeError` on `None`, bools and numbers.

The listen-key loop is modelled in two layers:
- A pure specification: `Step` is one pass of the loop, `Finish` is the `finally` block and `Run` is a sequence of passes. These work on a `Session` value: the current key, the current reader, how many reader tasks were spawned and the log of cancelled tasks.
- The class `UserStreamDataSource`, with the two fields the source updates, plus the task history that makes the invariant statable. Its methods are proved to move the state exactly as the specification says.

The invariant `SingleReader` says three things:
- the only reader task not cancelled is the current one;
- only spawned tasks are cancelled;
- no task is cancelled twice.

Every I/O call is a parameter carrying its outcome:
- HTTP answers, as an `Exchange`: a status and a JSON body, or a transport failure;
- receive and ping results, as a `Receive`.

A `CancelledError` at any await ends the loop. The model represents this as the list of passes running out, followed by `Finish`. A cancellation in the middle of a pass is covered as well: the `finally` block resets both fields whatever they hold, and the state reached at any await inside a pass is one `Step` can produce. For example, after a fresh key was adopted it is the state of a pass whose keep-alive raised.

After an unexpected error the loop waits a fixed 5 s (`asyncio.sleep(5)`), with no backoff. A refused keep-alive is followed at once by a new fetch.

## Model

| member | source | states |
|---|---|---|
| `PyJson.ContainsInStr` | hummingbot/connector/exchange/upbit/upbit_utils.py:25 | `in` on a `str` is true exactly when the item occurs at some offset of it |
| `UpbitUtils.DefaultFeesAreOneTenthPercent` | hummingbot/connector/exchange/upbit/upbit_utils.py:12-16 | the default maker and taker fees are both 0.001, and buy fees are deducted from returns |
| `UpbitUtils.IsExchangeInformationValid` | hummingbot/connector/exchange/upbit/upbit_utils.py:19-25 | a missing, None or non-"TRADING" status gives false whatever the permissions. Missing permissions give false. It raises TypeError exactly when the status is "TRADING" and the permissions are None, a bool or a number |
| `UpbitUtils.IsExchangeInformationValidIff` | hummingbot/connector/exchange/upbit/upbit_utils.py:25 | true exactly when status is "TRADING" and the permissions list, are keyed by, or contain "SPOT" (both directions) |
| `UpbitUtils.MissingStatusNeverValid` | hummingbot/connector/exchange/upbit/upbit_utils.py:25 | a record with no status or status None is never valid, whatever its permissions |
| `UpbitUtils.OtherKeysIrrelevant` | hummingbot/connector/exchange/upbit/upbit_utils.py:25 | adding, changing or removing any key other than status and permissions does not change the answer |
| `UpbitUtils.OnlySpotPresenceMatters` | hummingbot/connector/exchange/upbit/upbit_utils.py:25 | two permission lists that agree on containing "SPOT" give the same answer, whatever else they list |
| `UpbitUtils.PermissionOrderIrrelevant` | hummingbot/connector/exchange/upbit/upbit_utils.py:25 | reordering the permission list never changes the answer |
| `BinancePerpetualUserStream.GetListenKey` | hummingbot/market/binance_perpetual/binance_perpetual_user_stream_data_source.py:38-47 | any status other than 200 gives IOError carrying that status. It succeeds exactly on status 200 with an object body holding "listenKey", and then returns that field |
| `BinancePerpetualUserStream.PingListenKey` | hummingbot/market/binance_perpetual/binance_perpetual_user_stream_data_source.py:49-58 | failure exactly when the body contains "code", success exactly when it does not. For an object body the result is `"code" !in body` |
| `BinancePerpetualUserStream.PingIgnoresStatus` | hummingbot/market/binance_perpetual/binance_perpetual_user_stream_data_source.py:54-58 | the keep-alive verdict does not depend on the HTTP status |
| `BinancePerpetualUserStream.KeyFrom` | hummingbot/market/binance_perpetual/binance_perpetual_user_stream_data_source.py:99-100 | reference definition, no contract of its own: storing a fetched key, where a JSON null key counts as no key under Python's `is None`. `NewKeyReplacesReader` and `RefusedPingResetsSession` state the key a pass stores through it |
| `BinancePerpetualUserStream.Adopt` | hummingbot/market/binance_perpetual/binance_perpetual_user_stream_data_source.py:99-104 | reference definition, no contract of its own: store the new key, cancel the previous reader and spawn a new one. `AdoptKeepsInvariant` and `NewKeyReplacesReader` describe it |
| `BinancePerpetualUserStream.Refresh` | hummingbot/market/binance_perpetual/binance_perpetual_user_stream_data_source.py:106-114 | reference definition, no contract of its own: the keep-alive part of a pass. `RefusedPingResetsSession`, `AcceptedPingKeepsSession` and `FailedPingChangesNothing` describe it |
| `BinancePerpetualUserStream.Step` | hummingbot/market/binance_perpetual/binance_perpetual_user_stream_data_source.py:98-120 | reference definition, no contract of its own: one pass of the `while True` loop. `StepKeepsSingleReader`, `FetchOnlyWithoutKey`, `FailedFetchChangesNothing`, `NewKeyReplacesReader`, `RefusedPingResetsSession`, `AcceptedPingKeepsSession` and `FailedPingChangesNothing` describe it, and `UserStreamDataSource.MaintainListenKey` is proved equal to it |
| `BinancePerpetualUserStream.Finish` | hummingbot/market/binance_perpetual/binance_perpetual_user_stream_data_source.py:121-125 | reference definition, no contract of its own: the `finally` block. `ListenForUserStreamLeavesNothingLive` describes it |
| `BinancePerpetualUserStream.Run` | hummingbot/market/binance_perpetual/binance_perpetual_user_stream_data_source.py:96-120 | reference definition, no contract of its own: the passes of the loop in order. `RunKeepsSingleReader` describes it, and `UserStreamDataSource.ListenForUserStream` is proved to end in `Finish` of it |
| `BinancePerpetualUserStream.WsSpec` | hummingbot/market/binance_perpetual/binance_perpetual_user_stream_data_source.py:60-78 | reference definition, no contract of its own: the behaviour of `ws_messages` over a script of receive outcomes, including a ping or pong wait that raises something other than a timeout or ConnectionClosed (one ping attempted, the error propagated). `WsStopsAtFirstEnd`, `WsOpenWithoutEnd` and `WsIgnoresAfterEnd` describe it, and `UserStreamDataSource.WsMessages` is proved equal to it |
| `BinancePerpetualUserStream.InitialSessionHasNoReader` | hummingbot/market/binance_perpetual/binance_perpetual_user_stream_data_source.py:31-36 | the initial state (no key, no task) satisfies the single-reader invariant with nothing live |
| `BinancePerpetualUserStream.StepKeepsSingleReader` | hummingbot/market/binance_perpetual/binance_perpetual_user_stream_data_source.py:98-120 | every pass of the loop preserves the invariant: at most one reader is live, it is the current one, and no task is cancelled twice |
| `BinancePerpetualUserStream.RunKeepsSingleReader` | hummingbot/market/binance_perpetual/binance_perpetual_user_stream_data_source.py:96-120 | any number of passes, with any outcomes, preserves the single-reader invariant |
| `BinancePerpetualUserStream.ListenForUserStreamLeavesNothingLive` | hummingbot/market/binance_perpetual/binance_perpetual_user_stream_data_source.py:121-125 | after any run and the `finally` block: no key, no reader, and no reader task left live |
| `BinancePerpetualUserStream.FetchOnlyWithoutKey` | hummingbot/market/binance_perpetual/binance_perpetual_user_stream_data_source.py:99-106 | with a key in hand the pass never fetches: its result does not depend on the fetch outcome |
| `BinancePerpetualUserStream.FailedFetchChangesNothing` | hummingbot/market/binance_perpetual/binance_perpetual_user_stream_data_source.py:115-120 | without a key, a fetch that raises leaves the state unchanged and the loop retries after 5 s |
| `BinancePerpetualUserStream.NewKeyReplacesReader` | hummingbot/market/binance_perpetual/binance_perpetual_user_stream_data_source.py:99-104 | a newly fetched key is stored and a new reader with a never-used id becomes current. The previous reader is appended to the cancellation log and is no longer live. The new reader is the only live one |
| `BinancePerpetualUserStream.RefusedPingResetsSession` | hummingbot/market/binance_perpetual/binance_perpetual_user_stream_data_source.py:106-112 | a refused keep-alive clears key and reader and continues at once. Under the single-reader invariant it leaves no reader task live. The next pass fetches: a failed fetch changes nothing, and a fetched key is stored with a new reader unless that pass's keep-alive is refused too |
| `BinancePerpetualUserStream.AcceptedPingKeepsSession` | hummingbot/market/binance_perpetual/binance_perpetual_user_stream_data_source.py:106-114 | an accepted keep-alive leaves key, reader and task history unchanged and waits for the next tick |
| `BinancePerpetualUserStream.FailedPingChangesNothing` | hummingbot/market/binance_perpetual/binance_perpetual_user_stream_data_source.py:115-120 | a keep-alive that raises leaves the state unchanged and the loop retries after 5 s |
| `BinancePerpetualUserStream.WsStopsAtFirstEnd` | hummingbot/market/binance_perpetual/binance_perpetual_user_stream_data_source.py:60-78 | the generator yields exactly the messages before the first stopping outcome, in order. It attempts one ping per receive timeout up to that outcome and ends as that outcome says: pong timeout, closed, or a propagated error |
| `BinancePerpetualUserStream.WsOpenWithoutEnd` | hummingbot/market/binance_perpetual/binance_perpetual_user_stream_data_source.py:62-69 | while no stopping outcome occurs, every message is yielded in order, one ping per timeout, and the stream stays open |
| `BinancePerpetualUserStream.WsIgnoresAfterEnd` | hummingbot/market/binance_perpetual/binance_perpetual_user_stream_data_source.py:70-76 | once the generator has stopped, nothing later is consumed |
| `BinancePerpetualUserStream.UserStreamDataSource.constructor` | hummingbot/market/binance_perpetual/binance_perpetual_user_stream_data_source.py:31-36 | starts with no key, no task and an empty task history, satisfying the invariant |
| `BinancePerpetualUserStream.UserStreamDataSource.CancelReaderTask` | hummingbot/market/binance_perpetual/binance_perpetual_user_stream_data_source.py:122-123 | cancelling records the current task, if there is one, in the cancellation log |
| `BinancePerpetualUserStream.UserStreamDataSource.MaintainListenKey` | hummingbot/market/binance_perpetual/binance_perpetual_user_stream_data_source.py:98-120 | one pass updates the fields exactly as `Step` says and returns its pause. The single-reader invariant is kept |
| `BinancePerpetualUserStream.UserStreamDataSource.ListenForUserStream` | hummingbot/market/binance_perpetual/binance_perpetual_user_stream_data_source.py:95-125 | the loop over any outcomes followed by the `finally` block ends with key and task None and no live reader. The state equals `Finish(Run(...))` |
| `BinancePerpetualUserStream.UserStreamDataSource.WsMessages` | hummingbot/market/binance_perpetual/binance_perpetual_user_stream_data_source.py:60-78 | the yielded messages, ping attempts and ending equal `WsSpec`. The socket is closed exactly when the generator exited, by return or by exception |

## Left out

- `log_user_stream` (the reconnecting reader that parses messages and puts them on an asyncio queue) is not modelled. It is an endless retry loop around I/O, and the model treats a reader task as an opaque id.
- `UpbitConfigMap`, `UpbitUSConfigMap`, `KEYS` and the `OTHER_DOMAINS*` tables are configuration with no behaviour.
- The HTTP requests, the websocket connection, `asyncio.wait_for` timeouts, `asyncio.sleep(5)` and `wait_til_next_tick(60)` are left out. Their outcomes are parameters, and the waits appear only as the `Pause` a pass ends with. The extra 60 s wait between adopting a new key and pinging it is not recorded.
- Task scheduling is not modelled. `safe_ensure_future` is a counter that hands out fresh ids, `cancel()` appends to a log, and interleavings with other tasks are left out.
- `ping_listen_key` receives the key in its request; the model passes only the reply, so a ping made while the key is None is simply whatever reply is given.
- Logging and `_last_recv_time` are left out: the shown code only initialises `_last_recv_time` and never updates it.
- `PyJson.JsonValue` stores only the integer value of numbers. No modelled decision looks at a number's value.
- `UserStreamDataSource.WsMessages`: a consumer that stops iterating early (closing the generator) is not modelled. The `finally` close also runs in that case.
