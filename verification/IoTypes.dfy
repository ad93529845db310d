/** The vocabulary of the public headers: error codes, wait types, handlers and poll flags. */
module IoTypes {

  datatype Option<+T> = None | Some(value: T)

  datatype ErrCode =
    | EioOk | EioTimeout | EioCancelled | EioStopped | EioInvarg
    | EioNoentry | EioNomem | EioInprogress | EioSyserr | EioEof

  datatype Status = Ready | Running | Stopping | Done

  datatype WaitType = WaitRead | WaitWrite | WaitException

  /** A handler is a callback together with its context.  What a callback does to the service in one
      invocation is a finite list of API calls, so a handler carries that list as its script. */
  datatype Handler = Handler(id: nat, script: seq<Action>)

  /** One API call made by a callback.  A missing handler is a NULL callback function; a missing wait
      type is the out-of-range value 3 that the library refuses. */
  datatype Action =
    | Post(hnd: Option<Handler>)
    | PostDelay(hnd: Option<Handler>, ms: int)
    | Sched(fd: int, wt: Option<WaitType>, hnd: Option<Handler>)
    | SchedTimeout(fd: int, wt: Option<WaitType>, hnd: Option<Handler>, ms: int)
    | Cancel(fd: int, evt: WaitType)
    | Stop
    | Reset
    | Run

  datatype PollFlag =
    | PollIn | PollPri | PollOut | PollErr | PollHup | PollNval
    | PollRdnorm | PollRdband | PollWrnorm | PollWrband

  type Flags = set<PollFlag>

  datatype PollFd = PollFd(fd: int, events: Flags, revents: Flags)

  datatype Key = Key(fd: int, wt: WaitType)

  /** An element of a deadline heap. */
  datatype Entry<+T> = Entry(deadline: int, item: T)
}
