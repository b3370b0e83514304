/**
 * YAML as the records see it. Marshalling turns a record into a tree of
 * scalars, scalar lists and mappings (which keys appear is decided by the
 * record's field tags, see module Models); turning that tree into text and back
 * is the YAML library's business and enters the model as a `Syntax` parameter.
 */
module Yaml {
  import opened Wrappers
  import opened Text

  /**
   * A YAML node: a scalar, a list of scalars or a mapping from keys to nodes.
   * There is no null node: yaml.v3 decodes `key:`, `~` and `null` into any
   * field as its zero value, so `Syntax.unmarshal` is taken to drop
   * null-valued keys, which then decode as absent.
   */
  datatype Node =
    | Scalar(text: string)
    | List(items: seq<string>)
    | Mapping(fields: map<string, Node>)

  /** The library's text syntax: `yaml.Marshal` and `yaml.Unmarshal`. */
  datatype Syntax = Syntax(marshal: Node -> string, unmarshal: string -> Result<Node>)

  /**
   * The syntax reads back the tree it wrote, also when the surrounding white
   * space has been trimmed.
   */
  predicate Faithful(y: Syntax, n: Node)
  {
    && y.unmarshal(y.marshal(n)) == Ok(n)
    && y.unmarshal(TrimSpace(y.marshal(n))) == Ok(n)
  }

  /** What a string field accepts: the key is absent or holds a scalar. */
  predicate ScalarOrAbsent(fields: map<string, Node>, key: string)
  {
    key in fields ==> fields[key].Scalar?
  }

  /** What a list field accepts: the key is absent or holds a list. */
  predicate ListOrAbsent(fields: map<string, Node>, key: string)
  {
    key in fields ==> fields[key].List?
  }

  /** What a nested record accepts: the key is absent or holds a mapping. */
  predicate MappingOrAbsent(fields: map<string, Node>, key: string)
  {
    key in fields ==> fields[key].Mapping?
  }

  /** A string field: absent decodes to the zero value "". */
  function GetString(fields: map<string, Node>, key: string): (r: Result<string>)
    ensures key !in fields ==> r == Ok("")
    ensures r.Ok? <==> ScalarOrAbsent(fields, key)
    ensures key in fields && fields[key].Scalar? ==> r == Ok(fields[key].text)
  {
    if key !in fields then Ok("")
    else match fields[key]
      case Scalar(t) => Ok(t)
      case _ => Err(YamlError("field " + key + " is not a scalar"))
  }

  /** A list field: absent decodes to the empty list. */
  function GetList(fields: map<string, Node>, key: string): (r: Result<seq<string>>)
    ensures key !in fields ==> r == Ok([])
    ensures r.Ok? <==> ListOrAbsent(fields, key)
    ensures key in fields && fields[key].List? ==> r == Ok(fields[key].items)
  {
    if key !in fields then Ok([])
    else match fields[key]
      case List(items) => Ok(items)
      case _ => Err(YamlError("field " + key + " is not a list"))
  }

  /** A nested mapping: absent decodes to the empty mapping. */
  function GetMapping(fields: map<string, Node>, key: string): (r: Result<map<string, Node>>)
    ensures key !in fields ==> r == Ok(map[])
    ensures r.Ok? <==> MappingOrAbsent(fields, key)
    ensures key in fields && fields[key].Mapping? ==> r == Ok(fields[key].fields)
  {
    if key !in fields then Ok(map[])
    else match fields[key]
      case Mapping(f) => Ok(f)
      case _ => Err(YamlError("field " + key + " is not a mapping"))
  }

  /** The scalar YAML writes for a boolean. */
  function BoolText(b: bool): string
  {
    if b then "true" else "false"
  }

  /** The scalars yaml.v3 reads as true into a `bool` field: the YAML 1.2 forms and the YAML 1.1 y/yes/on forms. */
  const TrueWords: set<string> := {"true", "True", "TRUE", "y", "Y", "yes", "Yes", "YES", "on", "On", "ON"}

  /** The scalars yaml.v3 reads as false into a `bool` field. */
  const FalseWords: set<string> := {"false", "False", "FALSE", "n", "N", "no", "No", "NO", "off", "Off", "OFF"}

  /** A boolean field: absent decodes to false; a scalar must be one of `TrueWords` or `FalseWords`. */
  function GetBool(fields: map<string, Node>, key: string): (r: Result<bool>)
    ensures key !in fields ==> r == Ok(false)
    ensures r.Ok? ==> ScalarOrAbsent(fields, key)
    ensures forall b :: key in fields && fields[key] == Scalar(BoolText(b)) ==> r == Ok(b)
    ensures key in fields && fields[key].Scalar? ==>
      (r == Ok(true) <==> fields[key].text in TrueWords) && (r == Ok(false) <==> fields[key].text in FalseWords)
  {
    if key !in fields then Ok(false)
    else match fields[key]
      case Scalar(t) =>
        if t in TrueWords then Ok(true)
        else if t in FalseWords then Ok(false)
        else Err(YamlError("field " + key + " is not a boolean"))
      case _ => Err(YamlError("field " + key + " is not a boolean"))
  }
}
