# pulsar WSGI application: concurrency dispatch and lifecycle hooks

A Dafny model of `WSGIApplication` in pulsar's WSGI server
(`pulsar/apps/wsgi/__init__.py`). The arbiter calls this class's hooks to set up the server:

- `on_config` falls back to `thread` concurrency when the platform cannot share a listening socket across processes.
- `get_task_queue` gives the monitor a thread queue unless the concurrency is `process`.
- `update_worker_paramaters` passes the monitor's socket to a worker when the monitor has no queue.
- `worker_start` makes a worker with a socket listen on it with an `HttpHandler`.
- `monitor_start` creates the listening socket. It fails with `ImproperlyConfigured` when no address is set. With a queue, the monitor itself listens with an `HttpPoolHandler`.
- `monitor_stop` removes that handler again.
- `handle_request` is a generator, resumed by the worker's event loop. It builds the WSGI environ, waiting once for the headers if needed. It annotates the environ with `pulsar.worker`, `wsgi.multithread` and `wsgi.multiprocess` (the two flags of the "environ Variables" section of PEP 3333). It calls the application once, then yields the write of its result and the response.

Files:

- `wrappers.dfy`: `Option` (Python's `None`) and `Result` (a raised exception).
- `pulsar.dfy`: the framework objects the hooks touch. `Config`, `Socket`, `TaskQueue`, `IOLoop` (a table from socket to registered handler), `Worker`, `Monitor` and the worker parameters `Params`. `add_handler`, `remove_handler`, `set_socket` and `setblocking` are given the plain effect their names promise.
- `wsgi_request.dfy`: `handle_request`. `Resume` is one `next()` of the generator, as a function on its frame. The frame is its resume point, its `environ` local, the flags it read from the worker's configuration and the list of effects so far (calls of `wsgi_environ()`, `foce_close()`, the application, and the values yielded). `RequestGenerator.Next` is the same step as a method on the generator object. `BodyTrace` is the body read top to bottom. The lemmas tie the two and bound what any number of resumptions can do.
- `wsgi.dfy`: the `WSGIApplication` class with the other hooks. It also holds the functions that give each hook's effect on a parameter dict or handler table, and the lemmas that relate the hooks to one another.

What `request.wsgi_environ()` returns depends on how much of the request has arrived. It is therefore an input of each resumption (`environNow`), not a computed value.

Behaviour of the code that the model keeps although a reader might expect otherwise:

- Every concurrency other than `process` gets a task queue (line 29), not only `thread`.
- A queue is created even with one worker.
- If the second `wsgi_environ()` returns `None`, `environ.update` raises `AttributeError` (`Raised(AttributeError)`).
- If it returns an empty dict, the body goes on with an environ holding only the three annotations. No error is reported.
- `update_worker_paramaters` tests the truth value of `monitor.task_queue` (line 38). `monitor_start` and `monitor_stop` test `is not None` (lines 86 and 96). `Wsgi.AcceptingLoops` shows the effect. When every queue object tests true, exactly one of the monitor and the worker listens on the socket. A queue that tests false would make both listen.
- The class of `pulsar.ThreadQueue` is not part of this model, so whether a queue can test false is left open: `TaskQueue.truthy`.
- The `ImproperlyConfigured` message is " WSGI application with no address for socket", with a leading space. The string literal continues over a backslash-newline.

## Model

| member | source | states |
|---|---|---|
| `Wsgi.WSGIApplication.OnConfig` | pulsar/apps/wsgi/__init__.py:24-26 | concurrency becomes `thread` when the platform probe reports no multi-process socket, and is left as configured otherwise; workers and address are untouched |
| `Wsgi.OnConfigThenTaskQueue` | pulsar/apps/wsgi/__init__.py:24-32 | after `on_config`, a task queue is used exactly when the platform cannot share sockets or the declared concurrency is not `process`; without socket sharing the concurrency is always `thread` |
| `Wsgi.WSGIApplication.GetTaskQueue` | pulsar/apps/wsgi/__init__.py:28-32 | no queue exactly when the concurrency is `process`; otherwise a new queue |
| `Wsgi.WorkerParams` | pulsar/apps/wsgi/__init__.py:34-40 | the `socket` parameter is set to the monitor's socket exactly when the queue tests false; the dict is unchanged otherwise, and every other key keeps its value in both cases |
| `Wsgi.WSGIApplication.UpdateWorkerParameters` | pulsar/apps/wsgi/__init__.py:34-40 | updates the parameter dict in place as `WorkerParams` says and returns that same dict |
| `Wsgi.WorkerLoopAfterStart` | pulsar/apps/wsgi/__init__.py:46-51 | with a socket, the worker's loop gains exactly one READ `HttpHandler` for it and keeps every other registration; without one, the loop is unchanged |
| `Wsgi.WSGIApplication.WorkerStart` | pulsar/apps/wsgi/__init__.py:42-51 | a worker with a socket sets it non-blocking and registers it as `WorkerLoopAfterStart` says; without a socket nothing changes |
| `Wsgi.WSGIApplication.HandleRequest` | pulsar/apps/wsgi/__init__.py:53 | calling `handle_request` only creates the generator: its frame is the initial one and nothing has been called yet |
| `WsgiRequest.RequestGenerator.Next` | pulsar/apps/wsgi/__init__.py:54-70 | one `next()` runs the body from its resume point to the next `yield`, return or raise, exactly as `Resume` with the worker's configuration at that moment, and keeps the frame reachable; reachability does not depend on the configuration, so a change to it between resumptions never stops the generator |
| `WsgiRequest.ConcurrencyFlags` | pulsar/apps/wsgi/__init__.py:58-60 | `wsgi.multithread` and `wsgi.multiprocess` are never both true; both are false with at most one worker; each holds exactly for its own concurrency with more than one worker |
| `WsgiRequest.Annotate` | pulsar/apps/wsgi/__init__.py:61-63 | the environ gains `pulsar.worker` and the two flags with the values above, and every other key keeps its value |
| `WsgiRequest.RunKeepsReachable` | pulsar/apps/wsgi/__init__.py:53-70 | however many times and with whatever environs the generator is resumed, its frame stays one of the frames its body can reach |
| `WsgiRequest.ReachableBounds` | pulsar/apps/wsgi/__init__.py:54-67 | in a reachable frame, `wsgi_environ()` was called at most twice, and twice only around a wait on `request.on_headers`; the application was called at most once, and once called, with the environ annotated with the worker and with the flags the frame stored when it read the configuration, which are never both true |
| `WsgiRequest.ReachableYields` | pulsar/apps/wsgi/__init__.py:56-70 | at most three values are yielded; once the response is yielded, the last two are the write of the application's result and then the response |
| `WsgiRequest.NeverThirdEnvironCall` | pulsar/apps/wsgi/__init__.py:54-57 | for every sequence of resumptions, `wsgi_environ()` is never called a third time and the application never a second time |
| `WsgiRequest.RunMatchesBodyTrace` | pulsar/apps/wsgi/__init__.py:53-70 | resumed until it stops, the generator has done exactly what its body read top to bottom does for the first two environs; it ends in failure exactly when the first environ is empty and the retry returns `None`, and that retry raises `AttributeError` |
| `WsgiRequest.BodyTraceProperties` | pulsar/apps/wsgi/__init__.py:54-70 | one `wsgi_environ()` call if the first environ is non-empty, else a wait on `request.on_headers` and one retry; a `None` retry ends the trace with no application call and no yield but the wait; otherwise the application is called once with the annotated environ and the last two yields are its write and the response |
| `WsgiRequest.ResumeAfterWrite` | pulsar/apps/wsgi/__init__.py:68-70 | once the write is yielded, the result of every later `next()` depends neither on the worker's settings nor on the request: the next one yields the response and the rest stop |
| `WsgiRequest.ConfigChangeAfterWrite` | pulsar/apps/wsgi/__init__.py:58-70 | the flags are read once: with `thread` concurrency and four workers, setting `workers` to one after the write is yielded still lets the next `next()` yield the response, and the environ keeps `wsgi.multithread` true |
| `Wsgi.WSGIApplication.MonitorStart` | pulsar/apps/wsgi/__init__.py:72-92 | without an address, fails with `ImproperlyConfigured` and changes nothing; otherwise a new socket for that address becomes the monitor's socket, the queue is kept, and the monitor's loop changes as `MonitorLoopAfterStart` says |
| `Wsgi.MonitorLoopAfterStart` | pulsar/apps/wsgi/__init__.py:86-92 | with a queue, the monitor's loop gains exactly one READ `HttpPoolHandler` for the socket; without one, it is unchanged |
| `Wsgi.WSGIApplication.MonitorStop` | pulsar/apps/wsgi/__init__.py:95-97 | changes the monitor's loop as `MonitorLoopAfterStop` says |
| `Wsgi.MonitorLoopAfterStop` | pulsar/apps/wsgi/__init__.py:95-97 | with a queue, the socket's handler is removed and nothing else; without one, the loop is unchanged |
| `Wsgi.MonitorStopUndoesStart` | pulsar/apps/wsgi/__init__.py:86-97 | for a new socket, `monitor_stop` restores the monitor's loop to what it was before `monitor_start` |
| `Wsgi.AcceptingLoops` | pulsar/apps/wsgi/__init__.py:34-92 | the monitor listens on the socket iff it has a queue, and a worker iff the queue tests false; when queues test true exactly one of them listens, and a queue that tests false makes both listen |

## Left out

- Socket creation (`pulsar.create_socket`) is allocation of a new `Socket` object, with no I/O.
- `setblocking` only sets a flag.
- The platform probe `multiProcessSocket()` is a boolean parameter of `OnConfig`.
- `HttpHandler`, `HttpPoolHandler` and `HttpResponse` are not part of this model. Their code is not shown. The handlers are tokens naming their owner.
- The response is seen only through `foce_close()`, the value yielded for `response.write(data)`, and the response token. How `write` streams the chunks is not modelled.
- The application callable is a function of the environ. `start_response` and any call the application makes on it are not modelled.
- The request object is seen only through what `wsgi_environ()` returns and the `request.on_headers` token.
- `add_handler` is a map update. A second registration for the same socket would replace the first; whether the real loop raises instead is not modelled.
- `remove_handler` removes the key. Repeated `monitor_stop` calls are not claimed to be idempotent, because that depends on the real `remove_handler`.
- `set_socket` only stores the socket on the monitor.
- `pulsar.ThreadQueue` is not part of this model. Its truth value is a parameter of `GetTaskQueue`.
- Event-loop scheduling and the hand-off of connections through the queue are left out. Those are concurrency concerns. The generator is resumed by an arbitrary sequence of `next()` calls.
- Worker-side deregistration at shutdown does not exist in this code and is not modelled.
- `createServer` is a one-line constructor wrapper and is not modelled.
- tests/async/api.py tests pulsar's actor API (`get_proxy`, `spawn`, `send`). Nothing in it concerns the WSGI hooks, so nothing is modelled from it.
- Exceptions raised by `wsgi_environ()`, `foce_close()`, `response.write(data)` or the application callable are not modelled. These calls are total functions here. In the code nothing catches such an exception, so it would leave `next()` and end the generator.
- WsgiRequest.ReachableYields: describes only runs in which none of those calls raises.
- WsgiRequest.BodyTraceProperties: describes only runs in which none of those calls raises.
- `environ.update(...)` changes in place the dict that `wsgi_environ()` returned. The model builds a new map instead, so aliasing between that dict and the request is not captured.
- Wsgi.WSGIApplication.MonitorStart: the failing case says that the monitor and its loop are unchanged. It does not say that no socket object is allocated.
