/**
 * The repository record shown in lists (`GithubRepo`) and the relative-time
 * label `timeAgo` (src/components/landing/RepoList.tsx).
 *
 * `timeAgo` reads the clock; here it is a function of the elapsed time in
 * whole seconds, `Math.floor((now - then) / 1000)`, which may be negative.
 */
module RepoList {
  import opened Js

  datatype GithubRepo = GithubRepo(
    id: int,
    name: string,
    full_name: string,
    description: string,
    html_url: string,
    stargazers_count: int,
    forks_count: int,
    language: string,
    updated_at: string)

  datatype TimeUnit = Years | Months | Days | Hours | Minutes | Seconds

  /** A label before rendering: the printed count and its unit. */
  datatype Ago = Ago(count: int, unit: TimeUnit)

  function UnitSeconds(u: TimeUnit): nat {
    match u
    case Years => 31536000
    case Months => 2592000
    case Days => 86400
    case Hours => 3600
    case Minutes => 60
    case Seconds => 1
  }

  function UnitWord(u: TimeUnit): string {
    match u
    case Years => "years"
    case Months => "months"
    case Days => "days"
    case Hours => "hours"
    case Minutes => "minutes"
    case Seconds => "seconds"
  }

  /** `timeAgo`'s choice of unit and count: the first unit whose length is
      strictly exceeded, and the whole number of such units elapsed. */
  function Bucket(seconds: int): (r: Ago)
    ensures r.unit == Years <==> seconds > 31536000
    ensures r.unit == Months <==> 2592000 < seconds <= 31536000
    ensures r.unit == Days <==> 86400 < seconds <= 2592000
    ensures r.unit == Hours <==> 3600 < seconds <= 86400
    ensures r.unit == Minutes <==> 60 < seconds <= 3600
    ensures r.unit == Seconds <==> seconds <= 60
    ensures r.count == seconds / UnitSeconds(r.unit)
    ensures r.unit != Seconds ==> r.count >= 1
    ensures r.unit == Months ==> r.count <= 12
    ensures r.unit == Days ==> r.count <= 30
    ensures r.unit == Hours ==> r.count <= 24
    ensures r.unit == Minutes ==> r.count <= 60
  {
    if seconds > 31536000 then Ago(seconds / 31536000, Years)
    else if seconds > 2592000 then Ago(seconds / 2592000, Months)
    else if seconds > 86400 then Ago(seconds / 86400, Days)
    else if seconds > 3600 then Ago(seconds / 3600, Hours)
    else if seconds > 60 then Ago(seconds / 60, Minutes)
    else Ago(seconds, Seconds)
  }

  function Render(a: Ago): string {
    IntToString(a.count) + " " + UnitWord(a.unit) + " ago"
  }

  /** `timeAgo(updated_at)` for `seconds` elapsed. */
  function TimeAgo(seconds: int): (r: string)
    ensures var digits := IntToString(Bucket(seconds).count);
      |r| > |digits| + 4 && r[..|digits|] == digits && r[|r| - 4..] == " ago"
    ensures r[|IntToString(Bucket(seconds).count)|..] == " " + UnitWord(Bucket(seconds).unit) + " ago"
  {
    Render(Bucket(seconds))
  }

  lemma TwoDigits(n: nat)
    requires 10 <= n < 100
    ensures NatToString(n) == [DigitChar(n / 10), DigitChar(n % 10)]
  {
  }

  /** Exactly one minute is still shown in seconds. */
  lemma SixtySeconds()
    ensures TimeAgo(60) == "60 seconds ago"
  {
    TwoDigits(60);
    assert Bucket(60) == Ago(60, Seconds);
  }

  /** Exactly one hour is still shown in minutes. */
  lemma SixtyMinutes()
    ensures TimeAgo(3600) == "60 minutes ago"
  {
    TwoDigits(60);
    assert Bucket(3600) == Ago(60, Minutes);
  }

  /** A date in the future (negative elapsed time) is shown in seconds with its sign. */
  lemma FutureDateInSeconds(seconds: int)
    requires seconds < 0
    ensures Bucket(seconds) == Ago(seconds, Seconds)
    ensures TimeAgo(seconds) == "-" + NatToString(-seconds) + " seconds ago"
  {
    assert Bucket(seconds) == Ago(seconds, Seconds);
    assert IntToString(seconds) == "-" + NatToString(-seconds);
  }
}
