/** Resolution of the user's home directory from the process environment,
    which the model takes as an explicit map from variable name to value (a
    name absent from the map is unset: `getenv` returns `false`). */
module HomePath {
  import opened Wrappers

  type Environment = map<string, string>

  const HomeNotFound := "Could not get the users's home path"

  /** `getenv(name)`: the value, or absent when the variable is unset. */
  function GetEnv(env: Environment, name: string): Option<string>
  {
    if name in env then Some(env[name]) else None
  }

  /** PHP `empty()` on what `getenv` returns: `false`, `""` and `"0"`. */
  predicate IsEmpty(v: Option<string>)
  {
    v.None? || v.value == "" || v.value == "0"
  }

  /** PHP string conversion of what `getenv` returns: `false` becomes `""`. */
  function AsString(v: Option<string>): string
  {
    if v.None? then "" else v.value
  }

  /** `HOME`, else `USERPROFILE`, else `HOMEDRIVE` followed by `HOMEPATH`, each
      taken only when not empty; an error when all three are empty. */
  function GetHomePath(env: Environment): (r: Result<string>)
    ensures r.Failure? <==>
      IsEmpty(GetEnv(env, "HOME")) && IsEmpty(GetEnv(env, "USERPROFILE")) && IsEmpty(GetEnv(env, "HOMEPATH"))
    ensures r.Failure? ==> r.message == HomeNotFound
    ensures r.Success? ==> !IsEmpty(Some(r.value))
  {
    var unixHome := GetEnv(env, "HOME");
    if !IsEmpty(unixHome) then Success(unixHome.value)
    else
      var windowsHome := GetEnv(env, "USERPROFILE");
      if !IsEmpty(windowsHome) then Success(windowsHome.value)
      else
        var windowsPath := GetEnv(env, "HOMEPATH");
        if !IsEmpty(windowsPath) then Success(AsString(GetEnv(env, "HOMEDRIVE")) + AsString(windowsPath))
        else Failure(HomeNotFound)
  }

  /** A non-empty `HOME` is the answer, whatever the other variables hold. */
  lemma HomeTakesPrecedence(env: Environment, other: Environment)
    requires !IsEmpty(GetEnv(env, "HOME"))
    requires GetEnv(other, "HOME") == GetEnv(env, "HOME")
    ensures GetHomePath(env) == GetHomePath(other) == Success(env["HOME"])
  {
  }

  /** With `HOME` empty, a non-empty `USERPROFILE` is the answer, whatever
      `HOMEDRIVE` and `HOMEPATH` hold. */
  lemma UserProfileIsSecond(env: Environment, other: Environment)
    requires IsEmpty(GetEnv(env, "HOME")) && IsEmpty(GetEnv(other, "HOME"))
    requires !IsEmpty(GetEnv(env, "USERPROFILE"))
    requires GetEnv(other, "USERPROFILE") == GetEnv(env, "USERPROFILE")
    ensures GetHomePath(env) == GetHomePath(other) == Success(env["USERPROFILE"])
  {
  }

  /** With `HOME` and `USERPROFILE` empty, a non-empty `HOMEPATH` gives the
      drive followed by the path; an unset `HOMEDRIVE` contributes nothing. */
  lemma HomeDriveAndPathAreThird(env: Environment)
    requires IsEmpty(GetEnv(env, "HOME")) && IsEmpty(GetEnv(env, "USERPROFILE"))
    requires !IsEmpty(GetEnv(env, "HOMEPATH"))
    ensures "HOMEDRIVE" in env ==> GetHomePath(env) == Success(env["HOMEDRIVE"] + env["HOMEPATH"])
    ensures "HOMEDRIVE" !in env ==> GetHomePath(env) == Success(env["HOMEPATH"])
  {
    if "HOMEDRIVE" !in env {
      assert "" + env["HOMEPATH"] == env["HOMEPATH"];
    }
  }

  /** Setting one of the three checked variables to `""` or `"0"` has the same
      effect as leaving it unset. */
  lemma EmptyValuesFallThrough(env: Environment, name: string, value: string)
    requires name == "HOME" || name == "USERPROFILE" || name == "HOMEPATH"
    requires value == "" || value == "0"
    ensures GetHomePath(env[name := value]) == GetHomePath(env - {name})
  {
  }
}
