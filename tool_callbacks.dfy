/**
 * ToolCallbackService: a lazily filled cache of the tool callbacks, and a
 * periodic ping of the tool provider that ends the process when the
 * provider fails. The provider is not modelled: each call's answer (or the
 * exception it throws) is an input.
 */
module ToolCallbacks {
  import opened Wrappers
  import opened JavaLang
  import opened Lifecycle

  /** A tool the model may call; the callback objects themselves are opaque. */
  datatype ToolCallback = ToolCallback(name: string)

  /** What getFunctionCallbackList returns for a given cache content, when the
      provider would answer `provided`: the cached list, or the provider's. */
  function CachedOrProvided(cache: Option<seq<ToolCallback>>,
                            provided: Result<seq<ToolCallback>, JavaException>): Result<seq<ToolCallback>, JavaException>
  {
    if cache.Some? then Success(cache.value) else provided
  }

  /** The field after getFunctionCallbackList: filled by the first
      successful call, then kept. */
  function CacheAfterGet(cache: Option<seq<ToolCallback>>,
                         provided: Result<seq<ToolCallback>, JavaException>): Option<seq<ToolCallback>>
  {
    if cache.Some? then cache else if provided.Success? then Some(provided.value) else None
  }

  /** The value getFunctionCallbackList returns always equals the field
      after the call, and once the field is set a second call neither
      changes it nor returns anything else. */
  lemma GetterAgreesWithField(cache: Option<seq<ToolCallback>>,
                              provided: Result<seq<ToolCallback>, JavaException>,
                              later: Result<seq<ToolCallback>, JavaException>)
    ensures CachedOrProvided(cache, provided).Success? ==>
              CacheAfterGet(cache, provided) == Some(CachedOrProvided(cache, provided).value)
    ensures var after := CacheAfterGet(cache, provided);
      after.Some? ==> CacheAfterGet(after, later) == after && CachedOrProvided(after, later) == Success(after.value)
  {
  }

  class ToolCallbackService {
    /** `functionCallbackList`; None while it is still null. */
    var functionCallbackList: Option<seq<ToolCallback>>
    const supervisor: Supervisor

    constructor (supervisor: Supervisor)
      ensures functionCallbackList == None && this.supervisor == supervisor
    {
      functionCallbackList := None;
      this.supervisor := supervisor;
    }

    /** The first successful call stores the provider's list; every later
        call returns that list without asking the provider again. A provider
        exception propagates and leaves the field null. */
    method GetFunctionCallbackList(provided: Result<seq<ToolCallback>, JavaException>)
      returns (r: Result<seq<ToolCallback>, JavaException>)
      modifies this`functionCallbackList
      ensures r == CachedOrProvided(old(functionCallbackList), provided)
      ensures functionCallbackList == CacheAfterGet(old(functionCallbackList), provided)
      ensures r.Success? ==> functionCallbackList == Some(r.value)
    {
      if functionCallbackList.None? {
        if provided.Failure? {
          return provided;
        }
        functionCallbackList := Some(provided.value);
      }
      r := Success(functionCallbackList.value);
    }

    /** The health check: the provider's answer is discarded; an exception
        requests exit status 500. The cache is never touched. */
    method Ping(probe: Result<seq<ToolCallback>, JavaException>)
      modifies supervisor
      ensures supervisor.state == if probe.Failure? then AfterExit(old(supervisor.state), PingFailureExitStatus)
                                  else old(supervisor.state)
    {
      if probe.Failure? {
        supervisor.Exit(PingFailureExitStatus);
      }
    }
  }

  /** Two calls in a row return the same list whenever the first succeeds,
      whatever the provider answers the second time. */
  method GetTwice(service: ToolCallbackService,
                  first: Result<seq<ToolCallback>, JavaException>,
                  second: Result<seq<ToolCallback>, JavaException>)
    returns (a: Result<seq<ToolCallback>, JavaException>, b: Result<seq<ToolCallback>, JavaException>)
    modifies service
    ensures a.Success? ==> b == a && service.functionCallbackList == Some(a.value)
  {
    a := service.GetFunctionCallbackList(first);
    b := service.GetFunctionCallbackList(second);
  }
}
