/**
 * The parts of the pulsar framework that the WSGI application hooks touch.
 * Their code is not part of this model: each class keeps only the state the
 * hooks read or write, and the methods that stand for framework calls
 * (`add_handler`, `remove_handler`, `set_socket`) have the plain effect their
 * names promise.
 */
module Pulsar {
  import opened Wrappers

  /** A value stored in a WSGI environ dictionary. */
  datatype EnvValue = Text(text: string) | Flag(flag: bool) | WorkerRef(worker: Worker)

  /** A WSGI environ dictionary. */
  type Environ = map<string, EnvValue>

  /** What the application callable returns: the chunks of the response body. */
  type Body = seq<string>

  /** The application's settings, `cfg` (only the three the hooks read). */
  class Config {
    var concurrency: string
    var workers: int
    var address: Option<string>

    constructor (concurrency: string, workers: int, address: Option<string>)
      ensures this.concurrency == concurrency && this.workers == workers && this.address == address
    {
      this.concurrency := concurrency;
      this.workers := workers;
      this.address := address;
    }
  }

  /** A listening socket: an opaque object whose only observable state is its blocking flag. */
  class Socket {
    const address: string
    var blocking: bool

    /** `pulsar.create_socket(address)`: a new socket, blocking as Python sockets start out. */
    constructor (address: string)
      ensures this.address == address && blocking
    {
      this.address := address;
      blocking := true;
    }

    /** `sock.setblocking(flag)` */
    method SetBlocking(flag: bool)
      modifies this
      ensures blocking == flag
    {
      blocking := flag;
    }
  }

  /**
   * A `pulsar.ThreadQueue`. Its class is not part of this model, so the truth
   * value Python gives the object (`bool(queue)`) is kept as a parameter.
   */
  class TaskQueue {
    const truthy: bool

    constructor (truthy: bool)
      ensures this.truthy == truthy
    {
      this.truthy := truthy;
    }
  }

  /** The event mask of a registration; the hooks only ever ask for `ioloop.READ`. */
  datatype Interest = Read

  /** The handler objects the hooks register: `HttpHandler(worker)` and `HttpPoolHandler(monitor)`. */
  datatype Handler = HttpHandler(worker: Worker) | HttpPoolHandler(monitor: Monitor)

  datatype Registration = Registration(handler: Handler, events: Interest)

  /** An event loop, reduced to its table from socket to registered handler. */
  class IOLoop {
    var handlers: map<Socket?, Registration>

    constructor ()
      ensures handlers == map[]
    {
      handlers := map[];
    }

    /** `ioloop.add_handler(sock, handler, events)` */
    method AddHandler(sock: Socket?, handler: Handler, events: Interest)
      modifies this
      ensures handlers == old(handlers)[sock := Registration(handler, events)]
    {
      handlers := handlers[sock := Registration(handler, events)];
    }

    /** `ioloop.remove_handler(sock)` */
    method RemoveHandler(sock: Socket?)
      modifies this
      ensures handlers == old(handlers) - {sock}
    {
      handlers := handlers - {sock};
    }
  }

  /** A worker: its settings, its own event loop, the socket it may own and the application callable. */
  class Worker {
    const cfg: Config
    const ioloop: IOLoop
    const appHandler: Environ -> Body
    var socket: Socket?

    constructor (cfg: Config, ioloop: IOLoop, appHandler: Environ -> Body, socket: Socket?)
      ensures this.cfg == cfg && this.ioloop == ioloop && this.appHandler == appHandler
      ensures this.socket == socket
    {
      this.cfg := cfg;
      this.ioloop := ioloop;
      this.appHandler := appHandler;
      this.socket := socket;
    }
  }

  /** The monitor that supervises the workers of one application. */
  class Monitor {
    const ioloop: IOLoop
    var socket: Socket?
    var taskQueue: TaskQueue?

    constructor (ioloop: IOLoop, taskQueue: TaskQueue?)
      ensures this.ioloop == ioloop && this.taskQueue == taskQueue && socket == null
    {
      this.ioloop := ioloop;
      this.taskQueue := taskQueue;
      socket := null;
    }

    /** `monitor.set_socket(sock)`: the monitor now listens on `sock`. */
    method SetSocket(sock: Socket)
      modifies this
      ensures socket == sock && taskQueue == old(taskQueue)
    {
      socket := sock;
    }
  }

  /** The keyword parameters a worker is spawned with (a Python dict). */
  datatype Param = SocketParam(socket: Socket?) | OtherParam(value: string)

  class Params {
    var items: map<string, Param>

    constructor (items: map<string, Param>)
      ensures this.items == items
    {
      this.items := items;
    }
  }
}
