# Orchestrator retry machine and gateway rate limiter

This project models two small stateful pieces of a Python automation hub and
proves properties of them in Dafny.

1. **The Hypervelocity task orchestrator** (`orchestrator.dfy`, module
   `Orchestrator`). A task is a record. It holds an id, a type, a payload, a
   priority, a retry counter, a retry cap and a status. The orchestrator keeps
   a FIFO queue of tasks and a results registry keyed by task id.
   `ExecuteTask` runs a task once:
   - If the body returns, or the type is unknown, the task completes and a
     success entry is recorded.
   - If the body raises, the retry counter goes up by one. The task is then
     re-enqueued with a backoff of 2^retry_count seconds, or, once the cap is
     reached, it fails and a failure entry is recorded.

   `GetStats` summarises the registry.
2. **The API gateway** (`gateway.dfy`, module `Gateway`). It has three parts:
   - a sliding-window rate limiter that keeps a list of request times per
     client address;
   - the middleware that answers 429 when the limiter refuses;
   - the lookup that turns `/api/{service}/{path}` into a backend URL, or a
     404.

Task and gateway state that the source updates in place is kept in classes:
`Task`, `HypervelocityOrchestrator` and `RateLimiter`. Their methods state the
whole new state. The pure specification functions beside them carry the lemmas:
- `Attempt` and `Executions` for the retry policy;
- `Summarize` for the statistics;
- `Prune` for the sliding window;
- `RouteRequest` and `Services` for routing.

## Model

| member | source | states |
|---|---|---|
| `Orchestrator.Task.constructor` | 04-business-automation/hypervelocity-orchestrator/orchestrator.py:20-28 | a new task carries the given fields; by default priority 1, retry count 0, max retries 3 and status pending |
| `Orchestrator.HypervelocityOrchestrator.constructor` | 04-business-automation/hypervelocity-orchestrator/orchestrator.py:33-38 | the orchestrator starts with an empty queue and an empty results registry; default parallelism 50 |
| `Orchestrator.HypervelocityOrchestrator.AddTask` | 04-business-automation/hypervelocity-orchestrator/orchestrator.py:40-43 | the task is appended at the back of the queue whatever its priority; the registry is unchanged |
| `Orchestrator.HypervelocityOrchestrator.NextTask` | 04-business-automation/hypervelocity-orchestrator/orchestrator.py:145 | the front task leaves the queue (FIFO); an empty queue yields nothing (the worker's timeout) and stays empty |
| `Orchestrator.HypervelocityOrchestrator.ExecuteTask` | 04-business-automation/hypervelocity-orchestrator/orchestrator.py:45-84 | the effect is `Attempt`'s. On success: task completed, retry count kept, `results[id]` a success entry, queue unchanged. On a retry: count +1, status stays running, task appended to the queue, delay 2^count, registry unchanged. On giving up: count +1, task failed, `results[id]` a failure entry with the body's message |
| `Orchestrator.UnknownTypeResult` | 04-business-automation/hypervelocity-orchestrator/orchestrator.py:60 | an unknown type's result is a dictionary with the single key `error` |
| `Orchestrator.Attempt` | 04-business-automation/hypervelocity-orchestrator/orchestrator.py:50-84 | a run completes iff the type is unknown or the body returned. It retries iff the body raised and count+1 < max retries; it gives up iff the body raised and count+1 >= max retries. An unknown type completes with the error dictionary whatever the body would do. A retry waits at least 2 seconds |
| `Orchestrator.OnlyLastSettles` | 04-business-automation/hypervelocity-orchestrator/orchestrator.py:62-84 | within one chain of executions of a task (its run and the retries it re-enqueues itself), every run but the last is a retry, so the chain completes or fails the task once; adding a finished task again starts a new chain, which the source does not prevent |
| `Orchestrator.ExecutionsBounded` | 04-business-automation/hypervelocity-orchestrator/orchestrator.py:72-77 | whatever the body does, a task is executed at most max(1, max_retries - retry_count) times, and its i-th retry waits 2^(retry_count+1+i) |
| `Orchestrator.AlwaysFailingExecutions` | 04-business-automation/hypervelocity-orchestrator/orchestrator.py:72-84 | a task whose body always raises is executed exactly max(1, max_retries - retry_count) times, and the last run fails it with the body's message |
| `Orchestrator.DefaultAlwaysFailing` | 04-business-automation/hypervelocity-orchestrator/orchestrator.py:25-84 | under the defaults, an always-failing task is retried after 2 s, retried after 4 s, then fails: three runs |
| `Orchestrator.BackoffDoubles` | 04-business-automation/hypervelocity-orchestrator/orchestrator.py:76 | each backoff delay is twice the previous one |
| `Orchestrator.UnknownTypeCompletes` | 04-business-automation/hypervelocity-orchestrator/orchestrator.py:59-67 | a task of unknown type runs once and completes with the error dictionary; it is never a failure |
| `Orchestrator.SuccessesAndFailuresPartition` | 04-business-automation/hypervelocity-orchestrator/orchestrator.py:169-173 | the success ids and the failure ids partition the registry's keys, so their counts add up to the registry's size |
| `Orchestrator.Summarize` | 04-business-automation/hypervelocity-orchestrator/orchestrator.py:167-178 | total = number of registry entries and completed + failed = total. The success rate is 0 on an empty registry and completed*100/total otherwise, a fraction between 0 and 100. The queue size is passed through |
| `Orchestrator.RecordNewId` | 04-business-automation/hypervelocity-orchestrator/orchestrator.py:63-84 | recording an entry under a new id adds that id to the ids of its own kind and leaves the other kind's ids unchanged |
| `Orchestrator.RecordEntry` | 04-business-automation/hypervelocity-orchestrator/orchestrator.py:63-84 | recording under a new id raises the total and that kind's count by one. Recording under an existing id overwrites the entry and leaves the total unchanged: the total counts distinct ids |
| `Orchestrator.HypervelocityOrchestrator.GetStats` | 04-business-automation/hypervelocity-orchestrator/orchestrator.py:167-178 | the registry's size is the total and the queue's length the queue size; every entry is counted once, as completed or failed, so completed + failed = total; the success rate is 0 on an empty registry and completed*100/total otherwise, a fraction between 0 and 100 |
| `Gateway.Prune` | 05-integration-hubs/api-gateway/gateway.py:66 | the kept times are exactly the earlier times t with now - t < window, and there are no more of them than before |
| `Gateway.PruneAppend` | 05-integration-hubs/api-gateway/gateway.py:66 | pruning preserves order: pruning a concatenation concatenates the pruned parts |
| `Gateway.PruneCounts` | 05-integration-hubs/api-gateway/gateway.py:66 | a time inside the window keeps all its occurrences; a time outside has none left |
| `Gateway.PruneIdempotent` | 05-integration-hubs/api-gateway/gateway.py:66 | pruning twice at the same instant equals pruning once |
| `Gateway.RateLimiter.constructor` | 05-integration-hubs/api-gateway/gateway.py:57 | the store starts empty |
| `Gateway.RateLimiter.CheckRateLimit` | 05-integration-hubs/api-gateway/gateway.py:59-72 | the verdict is "allowed" iff the pruned record has fewer than `limit` times. The client's record becomes the pruned record, with `now` appended on allowance; the pruned record is kept even on refusal. The client's entry is created if missing. Every other client's record is untouched. After an allowance the record has at most `limit` times, and a store within `limit >= 0` stays within it. A client seen for the first time with `limit > 0` is allowed with record `[now]` |
| `Gateway.RateLimiter.Middleware` | 05-integration-hubs/api-gateway/gateway.py:74-98 | the response is 429 "Rate limit exceeded" with retry_after 60 exactly when the limiter (limit 100, window 60) refuses; otherwise it is the downstream response with the gateway version header. The client's record becomes its pruned record, with `now` appended on admission; every other record is untouched |
| `Gateway.WithVersionHeader` | 05-integration-hubs/api-gateway/gateway.py:92 | status and body are kept; the header `x-gateway-version` is `2.0.0` and replaces any earlier value; every other header is kept; a lower-cased header store stays lower-cased |
| `Gateway.SetHeader` | 05-integration-hubs/api-gateway/gateway.py:92 | setting a header stores its lower-cased name with the new value and keeps every other header; in a lower-cased store every spelling of the name then has the new value, so the header occurs once |
| `Gateway.VersionHeaderName` | 05-integration-hubs/api-gateway/gateway.py:92 | the header name `X-Gateway-Version` is stored as `x-gateway-version` |
| `Gateway.Services` | 05-integration-hubs/api-gateway/gateway.py:42-49 | the registry has exactly the six service names. Each base URL is its environment variable when set, else its default |
| `Gateway.RouteRequest` | 05-integration-hubs/api-gateway/gateway.py:131-135 | an unknown service gives 404 "Service '…' not found". Otherwise the URL splits back into the service's base URL, a `/` and the path |
| `Gateway.RouteInjective` | 05-integration-hubs/api-gateway/gateway.py:135 | different paths of one service are routed to different URLs |

## Left out

- The async machinery of the orchestrator is concurrency and is not part of this model. This covers `worker` (except its queue `get`, modelled as `NextTask`), `run`, `task_done`, the unused thread pool and the daemon thread.
- The task bodies `_generate_code`, `_run_tests`, `_deploy` and `_github_operation` are simulated or call the network. They are an `Outcome` parameter of `ExecuteTask`, so the GitHub token is not modelled either.
- `asyncio.sleep` for the backoff is not modelled. `ExecuteTask` returns the delay instead.
- Logging, and the `completed_at` / `failed_at` timestamps of registry entries, are wall-clock output and are left out.
- Payloads and result dictionaries hold arbitrary Python values. They are modelled as maps from strings to strings.
- Orchestrator.Task.constructor: the retry counter is a natural number. A starting count below -1 would make the source's backoff a fractional number of seconds, and no caller creates a negative one.
- The FastAPI and uvicorn glue of both files is not modelled: route handlers, request models, CORS and GZip middleware, and timestamp-based task ids.
- The gateway's Prometheus counters and histograms, the `/metrics`, `/health` and `/` endpoints, the unused JWT settings and `httpx` forwarding (with its 504/500 mapping) are not modelled.
- Header names are lower-cased for ASCII letters only; the header store also lower-cases other Latin-1 letters.
- The 429 response's own `content-type` and `content-length` headers are not modelled; its headers are empty.
- Time is whole seconds passed in as `now`. `time.time()` floats and the `X-Process-Time` header are not modelled.
- The success rate is an exact fraction, not a float percentage.
- `scripts/autohelix-init.py` is console narration and is not part of this model.
