/**
 * The credential plausibility checks of src/utils/supabase.ts, which decide
 * whether the shared backend client is created at all. Whether the platform's
 * `URL` constructor accepts a string is outside this model; callers supply it
 * as the predicate `urlParses`.
 */
module SupabaseCredentials {
  import opened Text

  const UrlPlaceholders: seq<string> := ["abc123", "your-project", "example"]
  const KeyPlaceholders: seq<string> := ["your-anon-key", "example"]
  const MinKeyLength: nat := 20

  /** No placeholder of `ps` occurs anywhere in `s`. */
  ghost predicate FreeOf(s: string, ps: seq<string>)
  {
    forall p, i :: p in ps ==> !OccursAt(s, p, i)
  }

  lemma FreeOfIff(s: string, ps: seq<string>)
    ensures FreeOf(s, ps) <==> forall k :: 0 <= k < |ps| ==> !Contains(s, ps[k])
  {
    forall k | 0 <= k < |ps| {
      ContainsIff(s, ps[k]);
    }
  }

  /** `isValidUrl(url)`. */
  function IsValidUrl(url: string, urlParses: string -> bool): (r: bool)
    ensures url == "" ==> !r
    ensures r <==> url != "" && FreeOf(url, UrlPlaceholders) && urlParses(url)
  {
    FreeOfIff(url, UrlPlaceholders);
    assert UrlPlaceholders[0] == "abc123" && UrlPlaceholders[1] == "your-project" && UrlPlaceholders[2] == "example";
    if url == "" then false
    else if Contains(url, "abc123") || Contains(url, "your-project") || Contains(url, "example") then false
    else urlParses(url)
  }

  /** `isValidKey(key)`. */
  function IsValidKey(key: string): (r: bool)
    ensures key == "" ==> !r
    ensures r <==> Utf16Length(key) >= MinKeyLength && FreeOf(key, KeyPlaceholders)
  {
    FreeOfIff(key, KeyPlaceholders);
    assert KeyPlaceholders[0] == "your-anon-key" && KeyPlaceholders[1] == "example";
    if key == "" then false
    else if Contains(key, "your-anon-key") || Contains(key, "example") || Utf16Length(key) < MinKeyLength then false
    else true
  }

  /** `process.env.X || ''`. */
  function EnvOrEmpty(v: Option<string>): (r: string)
    ensures r == "" <==> !Truthy(v)
    ensures Truthy(v) ==> r == v.value
  {
    if v.Some? then v.value else ""
  }

  datatype Client = Client(url: string, key: string)

  /** The exported `supabase`: a client over the two environment values, or null. */
  function ExportedClient(envUrl: Option<string>, envKey: Option<string>, urlParses: string -> bool): (c: Option<Client>)
    ensures c.Some? <==> IsValidUrl(EnvOrEmpty(envUrl), urlParses) && IsValidKey(EnvOrEmpty(envKey))
    ensures c.Some? ==> envUrl.Some? && envKey.Some? && c.value == Client(envUrl.value, envKey.value)
  {
    var url := EnvOrEmpty(envUrl);
    var key := EnvOrEmpty(envKey);
    if IsValidUrl(url, urlParses) && IsValidKey(key) then Some(Client(url, key)) else None
  }

  /** A key that carries a placeholder is refused however long it is. */
  lemma PlaceholderKeyRefused(a: string, b: string)
    ensures !IsValidKey(a + "example" + b)
    ensures !IsValidKey(a + "your-anon-key" + b)
  {
    ContainsWithin(a, "example", b);
    ContainsWithin(a, "your-anon-key", b);
  }

  /** A URL that carries a placeholder is refused whatever the URL parser says. */
  lemma PlaceholderUrlRefused(a: string, p: string, b: string, urlParses: string -> bool)
    requires p in UrlPlaceholders
    ensures !IsValidUrl(a + p + b, urlParses)
  {
    ContainsWithin(a, p, b);
  }
}
