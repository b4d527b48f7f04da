/** The line `read_ws` writes for each account linked to a blocked profile
    (`main.py:346-362`). */
module LinkedAccounts {
  import opened Wrappers

  /** One entry of the `profiles` list the platform returns. */
  datatype Platform = Platform(platformType: string, idOnPlatform: string, nameOnPlatform: string)

  /** `str.upper` on one character, for ASCII letters. */
  function UpperChar(c: char): (u: char)
    ensures 'a' <= c <= 'z' ==> 'A' <= u <= 'Z' && u as int - c as int == 'A' as int - 'a' as int
    ensures !('a' <= c <= 'z') ==> u == c
  {
    if 'a' <= c <= 'z' then (c as int - 'a' as int + 'A' as int) as char else c
  }

  /** `main.py:358-360`: the type with its first character upper-cased; None
      for the empty type, where `upper_first[0]` raises `IndexError`. */
  function UpperFirst(t: string): (r: Option<string>)
    ensures r.None? <==> t == ""
    ensures r.Some? ==> |r.value| == |t| && r.value[1..] == t[1..] && r.value[0] == UpperChar(t[0])
  {
    if t == "" then None else Some([UpperChar(t[0])] + t[1..])
  }

  /** `main.py:347-362`: the line for one linked account; None when the
      platform type is empty. */
  function LinkedLine(profileId: string, p: Platform): (r: Option<string>)
    ensures r.None? <==> p.platformType == ""
  {
    match p.platformType
    case "uplay" => Some("**Uplay**:\n\tLink: https://r6.tracker.network/r6/search?name=" + profileId + "&platform=4")
    case "steam" => Some("**Steam**:\n\tLink: https://findsteamid.com/steamid/" + p.idOnPlatform)
    case "xbl" => Some("**XBL**:\n\tLink: https://xboxgamertag.com/search/" + p.nameOnPlatform)
    case "twitch" => Some("**Twitch**:\n\tLink: https://www.twitch.tv/" + p.nameOnPlatform)
    case _ =>
      match UpperFirst(p.platformType)
      case None => None
      case Some(heading) =>
        Some("**" + heading + "**:\n\tName: **" + p.nameOnPlatform + "**\n\tID: **" + p.idOnPlatform + "**")
  }

  /** The line for an account of a type the loop does not know names the type
      (first letter upper-cased), the name and the id; only the empty type
      has no line. */
  lemma UnknownPlatformLine(profileId: string, p: Platform)
    requires p.platformType !in {"uplay", "steam", "xbl", "twitch"}
    ensures LinkedLine(profileId, p).None? <==> p.platformType == ""
    ensures p.platformType != "" ==>
      LinkedLine(profileId, p).value ==
        "**" + [UpperChar(p.platformType[0])] + p.platformType[1..] + "**:\n\tName: **"
        + p.nameOnPlatform + "**\n\tID: **" + p.idOnPlatform + "**"
  {
  }

  /** The lines for a list of accounts, one per account in order; None as
      soon as one account has no line. */
  function LinkedAll(profileId: string, platforms: seq<Platform>): Option<seq<string>>
    decreases |platforms|
  {
    if |platforms| == 0 then Some([])
    else
      var last := platforms[|platforms| - 1];
      match LinkedAll(profileId, platforms[..|platforms| - 1])
      case None => None
      case Some(lines) =>
        match LinkedLine(profileId, last)
        case None => None
        case Some(line) => Some(lines + [line])
  }

  /** `LinkedAll` fails exactly when some account has an empty type, and
      otherwise holds the line of each account at its position. */
  lemma {:induction false} LinkedAllLines(profileId: string, platforms: seq<Platform>)
    ensures LinkedAll(profileId, platforms).None? <==> exists i :: 0 <= i < |platforms| && platforms[i].platformType == ""
    ensures var r := LinkedAll(profileId, platforms);
      r.Some? ==>
        |r.value| == |platforms| && forall i :: 0 <= i < |platforms| ==> Some(r.value[i]) == LinkedLine(profileId, platforms[i])
    decreases |platforms|
  {
    if |platforms| > 0 {
      var init := platforms[..|platforms| - 1];
      LinkedAllLines(profileId, init);
      assert forall i :: 0 <= i < |init| ==> init[i] == platforms[i];
    }
  }

  /** The `for` loop of `main.py:346-362`, appending to `profile['linked']`;
      None when it raises. */
  method LinkedLines(profileId: string, platforms: seq<Platform>) returns (r: Option<seq<string>>)
    ensures r == LinkedAll(profileId, platforms)
  {
    var linked: seq<string> := [];
    var i := 0;
    while i < |platforms|
      invariant 0 <= i <= |platforms|
      invariant LinkedAll(profileId, platforms[..i]) == Some(linked)
    {
      assert platforms[..i + 1][..i] == platforms[..i];
      var line := LinkedLine(profileId, platforms[i]);
      if line.None? {
        assert LinkedAll(profileId, platforms[..i + 1]).None?;
        LinkedAllStops(profileId, platforms, i + 1);
        return None;
      }
      linked := linked + [line.value];
      i := i + 1;
    }
    assert platforms[..i] == platforms;
    return Some(linked);
  }

  /** Once a prefix has no lines, neither has the whole list. */
  lemma {:induction false} LinkedAllStops(profileId: string, platforms: seq<Platform>, n: nat)
    requires n <= |platforms| && LinkedAll(profileId, platforms[..n]).None?
    ensures LinkedAll(profileId, platforms).None?
    decreases |platforms| - n
  {
    if n < |platforms| {
      assert platforms[..n + 1][..n] == platforms[..n];
      LinkedAllStops(profileId, platforms, n + 1);
    } else {
      assert platforms[..n] == platforms;
    }
  }
}
