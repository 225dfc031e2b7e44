/**
 * The public header of the logger: the `logLvl` enumeration and the
 * `MYLOG_*` macros, each of which expands to a `log_message` call with one
 * fixed level.
 */
module Levels {
  import opened Wrappers

  /** One constructor per enumerator of `enum logLvl`. */
  datatype LogLvl = Emerg | Alert | Crit | Err | Warning | Notice | Info | Debug

  /** The enumerators in the order the header declares them. */
  const Enumerators: seq<LogLvl> := [Emerg, Alert, Crit, Err, Warning, Notice, Info, Debug]

  /** The enumerator's identifier as spelled in the header. */
  function EnumeratorName(l: LogLvl): string
  {
    match l
    case Emerg => "LOGLVL_EMERG"
    case Alert => "LOGLVL_ALERT"
    case Crit => "LOGLVL_CRIT"
    case Err => "LOGLVL_ERR"
    case Warning => "LOGLVL_WARNING"
    case Notice => "LOGLVL_NOTICE"
    case Info => "LOGLVL_INFO"
    case Debug => "LOGLVL_DEBUG"
  }

  /**
   * The integer value of an enumerator. The first is set to 0 and every later
   * one, having no initialiser, is its predecessor plus one, so an
   * enumerator's value is its position in the declaration.
   */
  function Value(l: LogLvl): (r: nat)
    ensures r < |Enumerators| && Enumerators[r] == l
  {
    match l
    case Emerg => 0
    case Alert => 1
    case Crit => 2
    case Err => 3
    case Warning => 4
    case Notice => 5
    case Info => 6
    case Debug => 7
  }

  /**
   * The enumerator with value `n`, if there is one. With `Value`'s contract
   * this makes distinct enumerators have distinct values: `FromValue(Value(l)) == Some(l)`.
   */
  function FromValue(n: int): (r: Option<LogLvl>)
    ensures r.Some? <==> 0 <= n < |Enumerators|
    ensures r.Some? ==> Value(r.value) == n
  {
    if 0 <= n < |Enumerators| then Some(Enumerators[n]) else None
  }

  /** Values run consecutively from 0 in declaration order. */
  lemma Consecutive(i: nat)
    requires i < |Enumerators|
    ensures Value(Enumerators[i]) == i
    ensures i + 1 < |Enumerators| ==> Value(Enumerators[i + 1]) == Value(Enumerators[i]) + 1
  {
  }

  /** EMERG < ALERT < ... < DEBUG: a later enumerator has a larger value. */
  lemma Ordered(i: nat, j: nat)
    requires i < j < |Enumerators|
    ensures Value(Enumerators[i]) < Value(Enumerators[j])
  {
  }

  /** One constructor per `MYLOG_*` macro, in the order the header defines them. */
  datatype Macro =
    | MylogInfo | MylogErr | MylogDebug | MylogWarning
    | MylogNotice | MylogAlert | MylogCrit | MylogEmerg

  function MacroName(m: Macro): string
  {
    match m
    case MylogInfo => "MYLOG_INFO"
    case MylogErr => "MYLOG_ERR"
    case MylogDebug => "MYLOG_DEBUG"
    case MylogWarning => "MYLOG_WARNING"
    case MylogNotice => "MYLOG_NOTICE"
    case MylogAlert => "MYLOG_ALERT"
    case MylogCrit => "MYLOG_CRIT"
    case MylogEmerg => "MYLOG_EMERG"
  }

  /**
   * The level argument a macro's expansion passes to `log_message`:
   * `MYLOG_X` passes the value of `LOGLVL_X`.
   */
  function MacroLevel(m: Macro): (r: int)
    ensures FromValue(r).Some?
    ensures "MYLOG_" + EnumeratorName(FromValue(r).value)[|"LOGLVL_"|..] == MacroName(m)
  {
    match m
    case MylogInfo => Value(Info)
    case MylogErr => Value(Err)
    case MylogDebug => Value(Debug)
    case MylogWarning => Value(Warning)
    case MylogNotice => Value(Notice)
    case MylogAlert => Value(Alert)
    case MylogCrit => Value(Crit)
    case MylogEmerg => Value(Emerg)
  }

  /** No two macros pass the same level. */
  lemma MacroLevelInjective(m1: Macro, m2: Macro)
    requires MacroLevel(m1) == MacroLevel(m2)
    ensures m1 == m2
  {
  }

  /** Every enumerator is passed by some macro. */
  lemma EveryLevelHasMacro(l: LogLvl)
    ensures exists m :: MacroLevel(m) == Value(l)
  {
    var m := match l
      case Emerg => MylogEmerg
      case Alert => MylogAlert
      case Crit => MylogCrit
      case Err => MylogErr
      case Warning => MylogWarning
      case Notice => MylogNotice
      case Info => MylogInfo
      case Debug => MylogDebug;
    assert MacroLevel(m) == Value(l);
  }
}
