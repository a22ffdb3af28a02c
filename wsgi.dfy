/**
 * `WSGIApplication` (pulsar/apps/wsgi/__init__.py): the hooks through which
 * the pulsar arbiter configures a WSGI server, decides who accepts
 * connections, starts the monitor and the workers, and handles requests.
 *
 * In `process` concurrency each worker process listens on the socket itself;
 * in any other concurrency the monitor listens and hands the connections to
 * its workers through a task queue.
 */
module Wsgi {
  import opened Wrappers
  import opened Pulsar
  import opened WsgiRequest

  /** `pulsar.ImproperlyConfigured` */
  datatype ImproperlyConfigured = ImproperlyConfigured(message: string)

  /** The message `monitor_start` raises with (the string literal continues over a backslash-newline). */
  const NoAddressMessage := " WSGI application with no address for socket"

  /** The concurrency `on_config` leaves: `thread` when sockets cannot be shared across processes. */
  function EffectiveConcurrency(declared: string, multiProcessSocket: bool): string
  {
    if multiProcessSocket then declared else "thread"
  }

  /** `get_task_queue` creates a queue for every concurrency but `process`. */
  predicate UsesTaskQueue(concurrency: string)
  {
    concurrency != "process"
  }

  /** Python's truth value of `cfg.address`: not `None` and not empty. */
  predicate AddressGiven(address: Option<string>)
  {
    address.Some? && address.value != ""
  }

  /** Python's truth value of `monitor.task_queue`. */
  predicate QueueTruthy(q: TaskQueue?)
  {
    q != null && q.truthy
  }

  /**
   * The worker parameters after `update_worker_paramaters`: the monitor's
   * socket under `socket` when the queue tests false, nothing else touched.
   */
  function WorkerParams(params: map<string, Param>, queueTruthy: bool, socket: Socket?): (r: map<string, Param>)
    ensures queueTruthy ==> r == params
    ensures !queueTruthy ==> "socket" in r && r["socket"] == SocketParam(socket)
    ensures r.Keys == if queueTruthy then params.Keys else params.Keys + {"socket"}
    ensures forall k :: k in params && k != "socket" ==> r[k] == params[k]
  {
    if queueTruthy then params else params["socket" := SocketParam(socket)]
  }

  /** The worker's handler table after `worker_start`: one READ `HttpHandler` for its socket, if it has one. */
  function WorkerLoopAfterStart(handlers: map<Socket?, Registration>, w: Worker, s: Socket?): (r: map<Socket?, Registration>)
    ensures s == null ==> r == handlers
    ensures s != null ==> r.Keys == handlers.Keys + {s} && r[s] == Registration(HttpHandler(w), Read)
    ensures forall k :: k in handlers && k != s ==> r[k] == handlers[k]
  {
    if s == null then handlers else handlers[s := Registration(HttpHandler(w), Read)]
  }

  /** The monitor's handler table after `monitor_start`: one READ `HttpPoolHandler` for `s` iff there is a queue. */
  function MonitorLoopAfterStart(handlers: map<Socket?, Registration>, m: Monitor, hasQueue: bool, s: Socket)
    : (r: map<Socket?, Registration>)
    ensures !hasQueue ==> r == handlers
    ensures hasQueue ==> r.Keys == handlers.Keys + {s} && r[s] == Registration(HttpPoolHandler(m), Read)
    ensures forall k :: k in handlers && k != s ==> r[k] == handlers[k]
  {
    if hasQueue then handlers[s := Registration(HttpPoolHandler(m), Read)] else handlers
  }

  /** The monitor's handler table after `monitor_stop`: `s` deregistered iff there is a queue. */
  function MonitorLoopAfterStop(handlers: map<Socket?, Registration>, hasQueue: bool, s: Socket?)
    : (r: map<Socket?, Registration>)
    ensures !hasQueue ==> r == handlers
    ensures hasQueue ==> r.Keys == handlers.Keys - {s}
    ensures forall k :: k in r ==> k in handlers && r[k] == handlers[k]
  {
    if hasQueue then handlers - {s} else handlers
  }

  /**
   * After `on_config`, `get_task_queue` creates a queue exactly when the
   * platform cannot share sockets across processes or the declared
   * concurrency is not `process`.
   */
  lemma OnConfigThenTaskQueue(declared: string, multiProcessSocket: bool)
    ensures UsesTaskQueue(EffectiveConcurrency(declared, multiProcessSocket))
            <==> !multiProcessSocket || declared != "process"
    ensures !multiProcessSocket ==> EffectiveConcurrency(declared, multiProcessSocket) == "thread"
    ensures multiProcessSocket ==> EffectiveConcurrency(declared, multiProcessSocket) == declared
  {
  }

  /** `monitor_stop` undoes what `monitor_start` did to the monitor's loop for a new socket. */
  lemma MonitorStopUndoesStart(h: map<Socket?, Registration>, m: Monitor, hasQueue: bool, s: Socket)
    requires s !in h
    ensures MonitorLoopAfterStop(MonitorLoopAfterStart(h, m, hasQueue, s), hasQueue, s) == h
  {
  }

  /** The socket a worker is spawned with, if its parameters hold one. */
  function SocketOf(params: map<string, Param>): Socket?
  {
    if "socket" in params && params["socket"].SocketParam? then params["socket"].socket else null
  }

  /**
   * Who accepts connections on the new listening socket `s` once
   * `monitor_start` has run and a worker spawned with the parameters from
   * `update_worker_paramaters` has run `worker_start`. `monitor_start` tests
   * `task_queue is not None` while `update_worker_paramaters` tests its
   * truth value: when every queue tests true, exactly one of the monitor and
   * the worker listens on `s`; a queue that tests false makes both listen.
   */
  lemma AcceptingLoops(m: Monitor, w: Worker, q: TaskQueue?, s: Socket,
                       monitorLoop: map<Socket?, Registration>, workerLoop: map<Socket?, Registration>,
                       params: map<string, Param>)
    requires s !in monitorLoop && s !in workerLoop && "socket" !in params
    ensures var monitorAfter := MonitorLoopAfterStart(monitorLoop, m, q != null, s);
            var workerAfter := WorkerLoopAfterStart(workerLoop, w, SocketOf(WorkerParams(params, QueueTruthy(q), s)));
            && (s in monitorAfter <==> q != null)
            && (s in workerAfter <==> !QueueTruthy(q))
            && (q == null || q.truthy ==> (s in monitorAfter <==> s !in workerAfter))
            && (q != null && !q.truthy ==> s in monitorAfter && s in workerAfter)
  {
  }

  class WSGIApplication {
    const cfg: Config

    constructor (cfg: Config)
      ensures this.cfg == cfg
    {
      this.cfg := cfg;
    }

    /** `on_config`; `multiProcessSocket` is what `pulsar.platform.multiProcessSocket()` reports. */
    method OnConfig(multiProcessSocket: bool)
      modifies cfg
      ensures cfg.concurrency == EffectiveConcurrency(old(cfg.concurrency), multiProcessSocket)
      ensures cfg.workers == old(cfg.workers) && cfg.address == old(cfg.address)
    {
      if !multiProcessSocket {
        cfg.concurrency := "thread";
      }
    }

    /** `get_task_queue`; `queueTruthy` is the truth value of a new `pulsar.ThreadQueue()`. */
    method GetTaskQueue(queueTruthy: bool) returns (q: TaskQueue?)
      ensures q == null <==> !UsesTaskQueue(cfg.concurrency)
      ensures q != null ==> fresh(q) && q.truthy == queueTruthy
    {
      if cfg.concurrency == "process" {
        q := null;
      } else {
        q := new TaskQueue(queueTruthy);
      }
    }

    /** `update_worker_paramaters`: updates `params` in place and returns it. */
    method UpdateWorkerParameters(monitor: Monitor, params: Params) returns (r: Params)
      modifies params
      ensures r == params
      ensures params.items == WorkerParams(old(params.items), QueueTruthy(monitor.taskQueue), monitor.socket)
    {
      if !QueueTruthy(monitor.taskQueue) {
        params.items := params.items["socket" := SocketParam(monitor.socket)];
      }
      r := params;
    }

    /** `worker_start` */
    method WorkerStart(worker: Worker)
      modifies worker.socket, worker.ioloop
      ensures worker.socket != null ==> !worker.socket.blocking
      ensures worker.ioloop.handlers == WorkerLoopAfterStart(old(worker.ioloop.handlers), worker, worker.socket)
    {
      if worker.socket != null {
        worker.socket.SetBlocking(false);
        worker.ioloop.AddHandler(worker.socket, HttpHandler(worker), Read);
      }
    }

    /** `handle_request(worker, request)`: creates the generator; none of its body runs yet. */
    method HandleRequest(worker: Worker) returns (g: RequestGenerator)
      ensures fresh(g) && g.worker == worker && g.State() == Initial() && g.Valid()
    {
      g := new RequestGenerator(worker);
    }

    /**
     * `monitor_start`: fails with `ImproperlyConfigured` before creating a
     * socket when no address is configured; otherwise creates the socket and,
     * when the monitor has a task queue, listens on it with a pool handler.
     */
    method MonitorStart(monitor: Monitor) returns (r: Result<(), ImproperlyConfigured>)
      modifies monitor, monitor.ioloop
      ensures !AddressGiven(old(cfg.address)) ==>
                r == Failure(ImproperlyConfigured(NoAddressMessage)) && unchanged(monitor, monitor.ioloop)
      ensures AddressGiven(old(cfg.address)) ==>
                && r.Success? && monitor.socket != null && fresh(monitor.socket)
                && monitor.socket.address == old(cfg.address).value
                && monitor.taskQueue == old(monitor.taskQueue)
                && monitor.ioloop.handlers
                   == MonitorLoopAfterStart(old(monitor.ioloop.handlers), monitor, monitor.taskQueue != null, monitor.socket)
    {
      var address := cfg.address;
      if !AddressGiven(address) {
        return Failure(ImproperlyConfigured(NoAddressMessage));
      }
      var socket := new Socket(address.value);
      if monitor.taskQueue != null {
        monitor.SetSocket(socket);
        monitor.ioloop.AddHandler(monitor.socket, HttpPoolHandler(monitor), Read);
      } else {
        monitor.socket := socket;
      }
      r := Success(());
    }

    /** `monitor_stop` */
    method MonitorStop(monitor: Monitor)
      modifies monitor.ioloop
      ensures monitor.ioloop.handlers
              == MonitorLoopAfterStop(old(monitor.ioloop.handlers), monitor.taskQueue != null, monitor.socket)
    {
      if monitor.taskQueue != null {
        monitor.ioloop.RemoveHandler(monitor.socket);
      }
    }
  }
}
