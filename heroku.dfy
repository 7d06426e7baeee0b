/** The Heroku adapter: a stub whose factory remembers the processor it is
    given in the module variable `herokuProcessor`, and whose two operations
    ignore their arguments. */
module HerokuAdapter {
  import opened Errors

  /** the module: its variable and, as `this`, the one adapter object it exports */
  class HerokuModule {
    var herokuProcessor: object?

    constructor ()
      ensures herokuProcessor == null
    {
      herokuProcessor := null;
    }

    /** `module.exports`: store whatever it is given (`undefined` included)
        and return the shared adapter */
    method Bind(processor: object?) returns (adapter: HerokuModule)
      modifies this
      ensures adapter == this
      ensures herokuProcessor == processor
    {
      herokuProcessor := processor;
      adapter := this;
    }

    /** `register` resolves with no value, whatever it is passed */
    function Register(): (r: Outcome<()>)
      ensures r.Resolved?
    {
      Resolved(())
    }

    /** `serializeData` returns an empty list, whatever it is passed */
    function SerializeData<T>(): (r: seq<T>)
      ensures |r| == 0
    {
      []
    }
  }

  /** Two bindings hand out one adapter, which remembers the later processor. */
  method BindTwice(m: HerokuModule, first: object?, second: object?) returns (a1: HerokuModule, a2: HerokuModule)
    modifies m
    ensures a1 == a2 == m && m.herokuProcessor == second
  {
    a1 := m.Bind(first);
    a2 := m.Bind(second);
  }
}
