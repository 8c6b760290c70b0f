/** The settings object and `_extend`, the defaults/options merge used by both constructors. */
module Options {

  /** A setting's value: `null`, a boolean or a string (`googleAnalyticsID`, `autoScrollToTop`). */
  datatype Setting = NullSetting | BoolSetting(flag: bool) | TextSetting(text: string)

  /**
    * `_extend(defaults, options)`: copies the own properties of `defaults`, then those of
    * `options`, into a fresh object. The inputs are values here, so they cannot change.
    */
  method Extend<V>(defaults: map<string, V>, options: map<string, V>) returns (extended: map<string, V>)
    ensures extended.Keys == defaults.Keys + options.Keys
    ensures forall prop :: prop in options ==> extended[prop] == options[prop]
    ensures forall prop :: prop in defaults && prop !in options ==> extended[prop] == defaults[prop]
  {
    extended := map[];
    var todo := defaults.Keys;
    while todo != {}
      invariant todo <= defaults.Keys
      invariant extended.Keys == defaults.Keys - todo
      invariant forall prop :: prop in extended ==> extended[prop] == defaults[prop]
      decreases todo
    {
      var prop :| prop in todo;
      extended := extended[prop := defaults[prop]];
      todo := todo - {prop};
    }
    todo := options.Keys;
    while todo != {}
      invariant todo <= options.Keys
      invariant extended.Keys == defaults.Keys + (options.Keys - todo)
      invariant forall prop :: prop in extended && prop in options && prop !in todo ==> extended[prop] == options[prop]
      invariant forall prop :: prop in extended && (prop !in options || prop in todo) ==> extended[prop] == defaults[prop]
      decreases todo
    {
      var prop :| prop in todo;
      extended := extended[prop := options[prop]];
      todo := todo - {prop};
    }
  }
}
