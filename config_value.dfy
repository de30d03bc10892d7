/**
 * The values the configuration stores hold. In the code a value is an
 * `interface{}`: a string (from the environment or a tool), an `*Alias`
 * (config/alias.go), or whatever `json.Unmarshal` makes of a stored value
 * when the file is read back (maps, numbers, ...), which stays opaque here.
 */
module ConfigValue {
  import opened Base

  /** An `Alias` (config/alias.go:9-17). */
  datatype Alias = Alias(
    name: string,
    command: string,
    description: string,
    params: map<string, string>,
    created: Time,
    updated: Time)

  datatype Value =
    | Text(text: string)
    | AliasValue(alias: Alias)
    | Decoded(json: Bytes)
}
