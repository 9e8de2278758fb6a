/** How the gulp-notify factory settles its options before it builds a stream:
    a falsy options value becomes the empty record, template variables default
    to the empty mapping, and the reporting capability is the caller's
    `notifier` when one is given, otherwise a desktop notifier built from the
    (defaulted) options. */
module Config {

  datatype Option<T> = None | Some(value: T)

  /** A reporting capability. Functions cannot be compared, so a caller-supplied
      one is identified by a name. */
  datatype Reporter =
    | NodeNotifier(settings: Options)  // `new Notification(options)`, bound to its notify
    | Custom(name: string)             // the value of `options.notifier`

  /** A record's `title` or `message`: a fixed string, or a function of the
      file, identified by a name. */
  datatype TextOption =
    | Fixed(text: string)
    | FromFile(name: string)

  /** The shapes the factory's argument can take. Only the record has fields;
      an absent field is `None` (for `onLast`, `false`, since only its
      truthiness is read). The factory reads `onLast`, `templateOptions` and
      `notifier`; `title` and `message` are only handed on to the reporter
      module with the rest of the options. */
  datatype Options =
    | Missing                 // undefined or null
    | Text(text: string)      // the string shorthand
    | MessageFn(name: string) // the function shorthand, identified by a name
    | Settings(onLast: bool, templateOptions: Option<map<string, string>>, notifier: Option<Reporter>,
               title: Option<TextOption>, message: Option<TextOption>)

  /** The JavaScript falsy values among the shapes: nothing, or the empty string. */
  predicate Falsy(o: Options) {
    o.Missing? || (o.Text? && o.text == "")
  }

  /** The literal `{}`. */
  const EmptyRecord: Options := Settings(false, None, None, None, None)

  /** Everything the factory has settled once it returns a stream. */
  datatype Setup = Setup(options: Options, templateOptions: map<string, string>, reporter: Reporter, onLast: bool)

  /** The factory's preamble: defaulting of the options and of the template
      variables, choice of the reporter, and choice of the mode. */
  function Configure(options: Options): (s: Setup)
    // a falsy value is replaced by `{}`; a truthy one is passed on as it is
    ensures !Falsy(s.options)
    ensures Falsy(options) ==> s.options == EmptyRecord
    ensures !Falsy(options) ==> s.options == options
    // only a record asking for it selects the last-item mode
    ensures s.onLast <==> options.Settings? && options.onLast
    // template variables are the record's own, or none at all
    ensures options.Settings? && options.templateOptions.Some? ==> s.templateOptions == options.templateOptions.value
    ensures !(options.Settings? && options.templateOptions.Some?) ==> s.templateOptions == map[]
    // a given notifier is the reporter; otherwise the default one, built from what is passed on
    ensures options.Settings? && options.notifier.Some? ==> s.reporter == options.notifier.value
    ensures !(options.Settings? && options.notifier.Some?) ==> s.reporter == NodeNotifier(s.options)
  {
    var o := if Falsy(options) then EmptyRecord else options;
    var vars := if o.Settings? && o.templateOptions.Some? then o.templateOptions.value else map[];
    var reporter := if o.Settings? && o.notifier.Some? then o.notifier.value else NodeNotifier(o);
    Setup(o, vars, reporter, o.Settings? && o.onLast)
  }

  /** Defaulting is settled once: configuring again with the options that were
      passed on changes nothing. */
  lemma ConfigureIdempotent(options: Options)
    ensures Configure(Configure(options).options) == Configure(options)
  {
  }

  /** Every falsy options value (missing, or the empty string) behaves exactly
      as the empty record. */
  lemma FalsyIsEmptyRecord(options: Options)
    requires Falsy(options)
    ensures Configure(options) == Configure(EmptyRecord)
    ensures Configure(options) == Setup(EmptyRecord, map[], NodeNotifier(EmptyRecord), false)
  {
  }
}
