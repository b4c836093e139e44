/** Small helpers shared by the structures and the command line
    (r2c_isg/util.py): typed dict lookups, building a url from a name
    template, and fetching the dataset from the command context. */
module Util {
  import opened Outcomes
  import opened Json
  import opened PyStr

  /** get_str: the value stored under key when it is a str, else ''. */
  function GetStr(key: string, d: map<string, Json>): (r: string)
    ensures key in d && d[key].Str? ==> r == d[key].s
    ensures !(key in d && d[key].Str?) ==> r == ""
  {
    if key in d && d[key].Str? then d[key].s else ""
  }

  predicate IsDigit(ch: char) {
    '0' <= ch <= '9'
  }

  predicate AllDigits(s: string) {
    forall i :: 0 <= i < |s| ==> IsDigit(s[i])
  }

  /** int(s) for a string of decimal digits. */
  function DecimalValue(s: string): nat
    requires AllDigits(s)
  {
    if s == [] then 0 else DecimalValue(s[..|s| - 1]) * 10 + (s[|s| - 1] as int - '0' as int)
  }

  /** template.format(*pos, **named), scanning left to right from the
      next automatic field number. A field is the text between braces:
      '' takes the next positional argument, digits take that positional
      argument, any other name a keyword argument; '{{' and '}}' are
      literal braces. Python also refuses a template that mixes '{}' with
      numbered fields (ValueError); that check is not modelled, since the
      templates used here hold only named fields. */
  function FormatFrom(t: string, pos: seq<string>, named: map<string, string>, next: nat): Result<string>
    decreases |t|
  {
    if t == [] then Ok("")
    else if t[0] == '{' then
      if |t| > 1 && t[1] == '{' then
        var rest :- FormatFrom(t[2..], pos, named, next);
        Ok("{" + rest)
      else if '}' !in t[1..] then Err(ValueError)
      else
        var j := IndexOf(t[1..], '}');
        var field, after := t[1..][..j], t[1..][j + 1..];
        if field == "" then
          if next < |pos| then
            var rest :- FormatFrom(after, pos, named, next + 1);
            Ok(pos[next] + rest)
          else Err(IndexError)
        else if AllDigits(field) then
          var k := DecimalValue(field);
          if k < |pos| then
            var rest :- FormatFrom(after, pos, named, next);
            Ok(pos[k] + rest)
          else Err(IndexError)
        else if field in named then
          var rest :- FormatFrom(after, pos, named, next);
          Ok(named[field] + rest)
        else Err(KeyError(field))
    else if t[0] == '}' then
      if |t| > 1 && t[1] == '}' then
        var rest :- FormatFrom(t[2..], pos, named, next);
        Ok("}" + rest)
      else Err(ValueError)
    else
      var rest :- FormatFrom(t[1..], pos, named, next);
      Ok([t[0]] + rest)
  }

  function Format(t: string, pos: seq<string>, named: map<string, string>): Result<string> {
    FormatFrom(t, pos, named, 0)
  }

  /** Text without braces is copied through, in front of whatever the rest formats to. */
  lemma {:induction false} FormatPlainPrefix(prefix: string, rest: string, pos: seq<string>, named: map<string, string>, next: nat)
    requires '{' !in prefix && '}' !in prefix
    ensures FormatFrom(prefix + rest, pos, named, next)
         == (match FormatFrom(rest, pos, named, next)
             case Ok(s) => Ok(prefix + s)
             case Err(e) => Err(e))
    decreases |prefix|
  {
    if prefix != [] {
      var t := prefix + rest;
      assert prefix[0] in prefix;
      assert t[0] == prefix[0] && t[1..] == prefix[1..] + rest;
      FormatPlainPrefix(prefix[1..], rest, pos, named, next);
      match FormatFrom(rest, pos, named, next)
      case Ok(s) => assert [prefix[0]] + (prefix[1..] + s) == prefix + s;
      case Err(e) =>
    } else {
      assert prefix + rest == rest;
      match FormatFrom(rest, pos, named, next)
      case Ok(s) => assert prefix + s == s;
      case Err(e) =>
    }
  }

  /** A template that is a braceless prefix followed by one named field. */
  lemma FormatNamedField(prefix: string, field: string, pos: seq<string>, named: map<string, string>)
    requires '{' !in prefix && '}' !in prefix
    requires field != "" && '{' !in field && '}' !in field && !AllDigits(field)
    ensures Format(prefix + "{" + field + "}", pos, named)
         == if field in named then Ok(prefix + named[field]) else Err(KeyError(field))
  {
    var t := "{" + field + "}";
    FormatSingleField(field, pos, named);
    assert prefix + "{" + field + "}" == prefix + t;
    FormatPlainPrefix(prefix, t, pos, named, 0);
  }

  /** A template that is one named field. */
  lemma FormatSingleField(field: string, pos: seq<string>, named: map<string, string>)
    requires field != "" && '{' !in field && '}' !in field && !AllDigits(field)
    ensures FormatFrom("{" + field + "}", pos, named, 0)
         == if field in named then Ok(named[field]) else Err(KeyError(field))
  {
    var t := "{" + field + "}";
    assert field[0] in field;
    assert t[0] == '{' && t[1] == field[0] != '{';
    assert t[1..] == field + "}";
    assert (field + "}")[|field|] == '}';
    IndexOfFirst(field + "}", '}', |field|);
    assert t[1..][..|field|] == field;
    assert t[1..][|field| + 1..] == [];
    if field in named {
      assert named[field] + "" == named[field];
    }
  }

  /** url_from_name as written: the name is passed positionally, so a
      template with a named field cannot be filled. */
  function UrlFromNameAsWritten(name: string, template: string): Result<Option<string>> {
    if name == "" then Ok(None)
    else
      var url :- Format(template, [name], map[]);
      Ok(Some(url))
  }

  /** url_from_name as intended: the name fills the template's {name} field. */
  function UrlFromName(name: string, template: string): Result<Option<string>> {
    if name == "" then Ok(None)
    else
      var url :- Format(template, [], map["name" := name]);
      Ok(Some(url))
  }

  /** The url templates of the GitHub, PyPI and npm structures, each a
      prefix followed by the {name} field. */
  const GithubUrlPrefix := "https://github.com/"
  const PypiUrlPrefix := "https://pypi.org/project/"
  const NpmUrlPrefix := "https://npmjs.com/package/"

  function NameTemplate(prefix: string): string {
    prefix + "{" + "name" + "}"
  }

  /** With a {name} template, url_from_name as written raises KeyError('name')
      for every non-empty name. */
  lemma UrlFromNameAsWrittenRaises(prefix: string, name: string)
    requires '{' !in prefix && '}' !in prefix && name != ""
    ensures UrlFromNameAsWritten(name, NameTemplate(prefix)) == Err(KeyError("name"))
  {
    assert !AllDigits("name") by { assert !IsDigit("name"[0]); }
    FormatNamedField(prefix, "name", [name], map[]);
  }

  /** The corrected url_from_name gives None for '' and prefix + name otherwise. */
  lemma UrlFromNameFills(prefix: string, name: string)
    requires '{' !in prefix && '}' !in prefix
    ensures UrlFromName(name, NameTemplate(prefix)) == if name == "" then Ok(None) else Ok(Some(prefix + name))
  {
    if name != "" {
      assert !AllDigits("name") by { assert !IsDigit("name"[0]); }
      FormatNamedField(prefix, "name", [], map["name" := name]);
    }
  }

  /** The registry templates are {name} templates. */
  lemma GithubPrefixPlain()
    ensures '{' !in GithubUrlPrefix && '}' !in GithubUrlPrefix
  {
  }

  lemma PypiPrefixPlain()
    ensures '{' !in PypiUrlPrefix && '}' !in PypiUrlPrefix
  {
  }

  lemma NpmPrefixPlain()
    ensures '{' !in NpmUrlPrefix && '}' !in NpmUrlPrefix
  {
  }

  /** get_dataset: the context's truthy 'dataset' entry, or an error. A
      dataset object is always truthy, so only a missing entry or None fails. */
  function GetDataset<D>(obj: map<string, Option<D>>): (r: Result<D>)
    ensures r.Ok? <==> "dataset" in obj && obj["dataset"].Some?
    ensures r.Ok? ==> r.value == obj["dataset"].value
    ensures r.Err? ==> r.error == NoDataset
  {
    if "dataset" in obj && obj["dataset"].Some? then Ok(obj["dataset"].value) else Err(NoDataset)
  }
}
