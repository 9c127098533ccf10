/** The loader of the photos of a printed report: every address is fetched once, and what goes into the document,
    repeated photos included, stays within a budget. */
module PdfImages {
  import opened Prelude
  import opened Sanitiser

  const MAX_UNIQUE_IMAGES := 500
  const MAX_EMBEDDED_BYTES := 4 * 1024 * 1024
  const PNG := "data:image/png;base64,"

  predicate Base64(text: string)
  {
    forall i :: 0 <= i < |text| ==>
      'A' <= text[i] <= 'Z' || 'a' <= text[i] <= 'z' || '0' <= text[i] <= '9' || text[i] in "+/="
  }

  /** The encoding of a picture: never empty. */
  type Encoded = text: string | text != "" && Base64(text) witness "A"

  /** An embedded picture in the form this loader writes. */
  predicate PngText(text: string)
  {
    |text| > |PNG| && text[..|PNG|] == PNG && Base64(text[|PNG|..])
  }

  /** One call: the address if it is a trusted one, whether the time or the download limit is over, and what a fetch
      would give. */
  datatype Request = Request(source: string, url: Option<string>, late: bool, picture: Option<Encoded>)

  /** An address that was tried without success is remembered too. */
  datatype Photos = Photos(cache: map<string, Option<string>>, embedded: nat)

  const EMPTY := Photos(map[], 0)

  function Include(ph: Photos, value: Option<string>): (Photos, Option<string>)
  {
    if OrEmpty(value) == "" || ph.embedded + |value.value| > MAX_EMBEDDED_BYTES then (ph, None)
    else (ph.(embedded := ph.embedded + |value.value|), value)
  }

  function Ask(ph: Photos, r: Request): (Photos, Option<string>)
  {
    if r.url.None? then (ph, None)
    else if r.url.value in ph.cache then Include(ph, ph.cache[r.url.value])
    else if r.late || |ph.cache| >= MAX_UNIQUE_IMAGES || ph.embedded >= MAX_EMBEDDED_BYTES then (ph, None)
    else if r.picture.None? then (ph.(cache := ph.cache[r.url.value := None]), None)
    else Include(ph.(cache := ph.cache[r.url.value := Some(PNG + r.picture.value)]), Some(PNG + r.picture.value))
  }

  function Play(requests: seq<Request>): Photos
  {
    if requests == [] then EMPTY else Ask(Play(requests[..|requests| - 1]), requests[|requests| - 1]).0
  }

  /** The n-th answer depends on all calls before it. */
  function Answer(requests: seq<Request>, n: nat): Option<string>
    requires n < |requests|
  {
    Ask(Play(requests[..n]), requests[n]).1
  }

  /** The loader that a run of calls amounts to. */
  function LoaderOf(requests: seq<Request>): Loader
  {
    (n: nat, source: string) => if n < |requests| && requests[n].source == source then Answer(requests, n) else None
  }

  // ---------------------------------------------------------------- the budget

  predicate Inv(ph: Photos)
  {
    && ph.embedded <= MAX_EMBEDDED_BYTES && |ph.cache| <= MAX_UNIQUE_IMAGES
    && forall url :: url in ph.cache && ph.cache[url].Some? ==> PngText(ph.cache[url].value)
  }

  /** The length of everything that was given out, repetitions included. */
  function Given(requests: seq<Request>): nat
  {
    if requests == [] then 0 else
      Given(requests[..|requests| - 1])
      + |OrEmpty(Ask(Play(requests[..|requests| - 1]), requests[|requests| - 1]).1)|
  }

  lemma PngIs(picture: Encoded)
    ensures PngText(PNG + picture)
  {
    assert (PNG + picture)[|PNG|..] == picture;
  }

  lemma AskKeeps(ph: Photos, r: Request)
    requires Inv(ph)
    ensures Inv(Ask(ph, r).0)
    ensures Ask(ph, r).1.Some? ==> PngText(Ask(ph, r).1.value)
    ensures Ask(ph, r).0.embedded == ph.embedded + |OrEmpty(Ask(ph, r).1)|
  {
    if r.picture.Some? {
      PngIs(r.picture.value);
    }
    hide PngText;
  }

  /** Whatever is asked in whatever order, and whatever the fetches give: the document grows by no more than the budget,
      and by exactly what the loader counted. */
  lemma {:induction false} WithinBudget(requests: seq<Request>)
    ensures Inv(Play(requests))
    ensures Given(requests) == Play(requests).embedded <= MAX_EMBEDDED_BYTES
  {
    if requests != [] {
      WithinBudget(requests[..|requests| - 1]);
      AskKeeps(Play(requests[..|requests| - 1]), requests[|requests| - 1]);
      hide Ask, Inv;
    }
  }

  lemma AskRemembers(ph: Photos, r: Request)
    ensures forall url :: url in ph.cache ==> url in Ask(ph, r).0.cache && Ask(ph, r).0.cache[url] == ph.cache[url]
    ensures Ask(ph, r).1.Some? ==>
              r.url.Some? && r.url.value in Ask(ph, r).0.cache && Ask(ph, r).0.cache[r.url.value] == Ask(ph, r).1
  {
  }

  lemma {:induction false} Remembered(requests: seq<Request>, i: nat, n: nat)
    requires i < n <= |requests| && Answer(requests, i).Some?
    ensures requests[i].url.Some? && requests[i].url.value in Play(requests[..n]).cache
    ensures Play(requests[..n]).cache[requests[i].url.value] == Answer(requests, i)
  {
    assert requests[..n][..n - 1] == requests[..n - 1];
    AskRemembers(Play(requests[..n - 1]), requests[n - 1]);
    if i < n - 1 {
      Remembered(requests, i, n - 1);
      hide Answer;
    }
    hide Ask;
  }

  /** However much is asked in between, an address that is asked for again gets the same picture or none. */
  lemma SamePicture(requests: seq<Request>, i: nat, j: nat)
    requires i < j < |requests| && requests[i].url == requests[j].url
    requires Answer(requests, i).Some? && Answer(requests, j).Some?
    ensures Answer(requests, j) == Answer(requests, i)
  {
    Remembered(requests, i, j);
    hide Play;
  }

  // ---------------------------------------------------------------- sanitising what this loader filled

  /** The pattern for embedded images accepts what this loader writes. */
  ghost predicate AcceptsPng(policy: Policy)
  {
    forall text: string :: PngText(text) ==> policy.imageOk(text)
  }

  lemma LoaderEmbedsPictures(policy: Policy, requests: seq<Request>)
    requires AcceptsPng(policy)
    ensures EmbedsPictures(policy, LoaderOf(requests))
  {
    var loader := LoaderOf(requests);
    forall n: nat, s: string
      ensures OrEmpty(loader(n, s)) == "" || policy.imageOk(OrEmpty(loader(n, s)))
    {
      if n < |requests| {
        WithinBudget(requests[..n]);
        AskKeeps(Play(requests[..n]), requests[n]);
      }
      hide Play, Ask, PngText, Inv;
    }
  }

  /** A report filled by the program's own loader does not change when it is sanitised again. */
  lemma ReportIsStable(policy: Policy, requests: seq<Request>, events: seq<Event>, other: Loader)
    requires Sane(policy) && AcceptsPng(policy) && Sanitise(policy, LoaderOf(requests), events).Some?
    ensures var once := Sanitise(policy, LoaderOf(requests), events).value; Sanitise(policy, other, once) == Some(once)
  {
    LoaderEmbedsPictures(policy, requests);
    IdempotentWithPictures(policy, LoaderOf(requests), events, other);
  }

  // ---------------------------------------------------------------- the object

  class Images {
    var cache: map<string, Option<string>>
    var embedded: nat

    function Now(): Photos
      reads this
    {
      Photos(cache, embedded)
    }

    constructor ()
      ensures Now() == EMPTY
    {
      cache, embedded := map[], 0;
    }

    method Add(value: Option<string>) returns (answer: Option<string>)
      modifies this`embedded
      ensures (Now(), answer) == Include(old(Now()), value)
    {
      if OrEmpty(value) == "" || embedded + |value.value| > MAX_EMBEDDED_BYTES {
        return None;
      }
      embedded := embedded + |value.value|;
      answer := value;
    }

    /** The address is marked as tried before the fetch, so that a failure is not repeated. */
    method Load(r: Request) returns (answer: Option<string>)
      modifies this
      ensures (Now(), answer) == Ask(old(Now()), r)
    {
      if r.url.None? {
        return None;
      }
      var url := r.url.value;
      if url in cache {
        answer := Add(cache[url]);
        return;
      }
      if r.late || |cache| >= MAX_UNIQUE_IMAGES || embedded >= MAX_EMBEDDED_BYTES {
        return None;
      }
      cache := cache[url := None];
      if r.picture.None? {
        return None;
      }
      cache := cache[url := Some(PNG + r.picture.value)];
      assert cache == old(cache)[url := Some(PNG + r.picture.value)];
      answer := Add(Some(PNG + r.picture.value));
    }
  }
}
