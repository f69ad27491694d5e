/** Repository visibility and its `gh repo create` flag (src/lib.rs:44-60). */
module Visibility {
  import opened Results

  datatype RepoVisibility = Public | Private | Internal

  /** The variant marked `#[default]`. */
  const DefaultVisibility: RepoVisibility := Private

  /** The command-line value of each variant, as clap's `ValueEnum` derive spells it. */
  function ValueName(v: RepoVisibility): string
  {
    match v
    case Public => "public"
    case Private => "private"
    case Internal => "internal"
  }

  /** clap's parse of a command-line value into a variant. */
  function ParseValueName(s: string): (r: Option<RepoVisibility>)
    ensures r.Some? ==> ValueName(r.value) == s
  {
    if s == "public" then Some(Public)
    else if s == "private" then Some(Private)
    else if s == "internal" then Some(Internal)
    else None
  }

  /** The flag is the variant's value name behind a double dash. */
  function ToGhCreateRepoFlag(v: RepoVisibility): (flag: string)
    ensures flag == "--" + ValueName(v)
  {
    match v
    case Public => "--public"
    case Private => "--private"
    case Internal => "--internal"
  }

  /** Distinct visibilities give distinct flags, and every value name parses back. */
  lemma FlagIdentifiesVisibility(a: RepoVisibility, b: RepoVisibility)
    ensures ToGhCreateRepoFlag(a) == ToGhCreateRepoFlag(b) <==> a == b
    ensures ParseValueName(ValueName(a)) == Some(a)
  {
    if ToGhCreateRepoFlag(a) == ToGhCreateRepoFlag(b) {
      assert ValueName(a) == ToGhCreateRepoFlag(a)[2..] == ToGhCreateRepoFlag(b)[2..] == ValueName(b);
    }
  }

  /** The default visibility is private, matching the default create command's flag. */
  lemma DefaultIsPrivate()
    ensures ToGhCreateRepoFlag(DefaultVisibility) == "--private"
  {
  }
}
