/**
 * NullValidator: a validator that reports whatever it is told to. Each of the
 * three lists is taken from the keyword argument of the same name, with a
 * fixed default when the argument is absent; the data set is not looked at.
 */
module NullValidator {
  import opened Tables
  import opened ValidationReport

  const DefaultInfo: seq<string> := ["Info example"]
  const DefaultWarnings: seq<string> := ["Warning example 1", "Warning example 2"]
  const DefaultErrors: seq<string> := []

  /** `kwargs.get(key, default)` */
  function GetOr(kwargs: map<string, seq<string>>, key: string, default: seq<string>): (v: seq<string>)
    ensures key in kwargs ==> v == kwargs[key]
    ensures key !in kwargs ==> v == default
  {
    if key in kwargs then kwargs[key] else default
  }

  /** `NullValidator().validate(data_dict, **kwargs)` */
  function Validate(data: DataDict, kwargs: map<string, seq<string>>): (r: Report)
    ensures r.info == GetOr(kwargs, "info", DefaultInfo)
    ensures r.warnings == GetOr(kwargs, "warnings", DefaultWarnings)
    ensures r.errors == GetOr(kwargs, "errors", DefaultErrors)
  {
    Report(GetOr(kwargs, "info", DefaultInfo), GetOr(kwargs, "warnings", DefaultWarnings), GetOr(kwargs, "errors", DefaultErrors))
  }

  /** Without keyword arguments the report is the fixed example one. */
  lemma Defaults(data: DataDict)
    ensures Validate(data, map[]) == Report(["Info example"], ["Warning example 1", "Warning example 2"], [])
  {
  }

  /** Passed lists come back unchanged under their own keys, whatever the data set. */
  lemma PassedThrough(d1: DataDict, d2: DataDict, info: seq<string>, warnings: seq<string>, errors: seq<string>)
    ensures Validate(d1, map["info" := info, "warnings" := warnings, "errors" := errors]) == Report(info, warnings, errors)
    ensures Validate(d1, map["info" := info, "warnings" := warnings, "errors" := errors]) ==
            Validate(d2, map["info" := info, "warnings" := warnings, "errors" := errors])
  {
  }
}
