/** Event and breadcrumb severity, and its lowercase wire name. */
module Levels {
  import opened Wrappers

  datatype Level = Debug | Info | Warning | Error | Fatal

  predicate IsLowercaseWord(s: string) {
    |s| > 0 && forall i :: 0 <= i < |s| ==> 'a' <= s[i] <= 'z'
  }

  /** The name a level is serialised under. */
  function Name(l: Level): (s: string)
    ensures IsLowercaseWord(s)
  {
    match l
    case Debug => "debug"
    case Info => "info"
    case Warning => "warning"
    case Error => "error"
    case Fatal => "fatal"
  }

  /** Reads a serialised level name back; `None` for any other string. */
  function Parse(s: string): (r: Option<Level>)
    ensures r.Some? ==> Name(r.value) == s
  {
    if s == "debug" then Some(Debug)
    else if s == "info" then Some(Info)
    else if s == "warning" then Some(Warning)
    else if s == "error" then Some(Error)
    else if s == "fatal" then Some(Fatal)
    else None
  }

  /** Every level survives the trip through its name; in particular no two
      levels share a name. */
  lemma ParseName(l: Level)
    ensures Parse(Name(l)) == Some(l)
  {
  }

  lemma NameInjective(a: Level, b: Level)
    ensures Name(a) == Name(b) ==> a == b
  {
    ParseName(a);
    ParseName(b);
  }
}
