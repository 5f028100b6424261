/** The process environment, read through `os.getenv`; it is fixed for the life of the process. */
module Os {
  import opened Wrappers

  type Env = map<string, string>

  /** `os.getenv(key)`: the variable's value, or `None` when it is not set. */
  function GetEnv(env: Env, key: string): Option<string> {
    if key in env then Some(env[key]) else None
  }

  /** `os.getenv(key, default)`: an empty value is still a value, only an unset variable falls back. */
  function GetEnvOr(env: Env, key: string, default: string): string {
    GetEnv(env, key).GetOr(default)
  }
}
