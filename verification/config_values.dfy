/** Option values shared by the server's and the agent's configuration. */
module ConfigValues {
  /** A configuration value after coercion: an integer or the text as read. */
  datatype ConfigValue = IntVal(n: nat) | StrVal(s: string)
}
