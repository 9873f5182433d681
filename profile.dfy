/** The configuration step for the music source and the social links: set the
    media element's source and volume, and for every social link either show
    it with its configured URL or hide it. A configuration value that is
    `null` or `undefined` is an absent key; the empty string is present but
    falsy. */
module Profile {
  import opened Audio

  /** The media element's volume after configuration. */
  const MusicVolume: real := 0.55

  /** `style.display`: never set, `'flex'`, or `'none'`. */
  datatype Display = Unset | Flex | Hidden

  /** One social anchor element. */
  class SocialLink {
    var href: string
    var display: Display

    constructor ()
      ensures href == "" && display == Unset
    {
      href, display := "", Unset;
    }
  }

  /** `CONFIG.socials[key]` is truthy: present and not the empty string. */
  predicate Truthy(socials: map<string, string>, key: string)
  {
    key in socials && socials[key] != ""
  }

  /** The link for `key` after the loop: shown with the configured URL when
      that URL is truthy; otherwise hidden with its previous `href`. */
  ghost predicate Applied(link: SocialLink, socials: map<string, string>, key: string, oldHref: string)
    reads link
  {
    if Truthy(socials, key) then link.display == Flex && link.href == socials[key]
    else link.display == Hidden && link.href == oldHref
  }

  /** The entries of `socialLinks` are distinct elements. */
  predicate DistinctLinks(links: seq<(string, SocialLink)>)
  {
    forall a, b :: 0 <= a < b < |links| ==> links[a].1 != links[b].1
  }

  /** The `forEach` over the social links' entries: each link is shown or
      hidden according to its own key alone. */
  method ApplySocials(links: seq<(string, SocialLink)>, socials: map<string, string>)
    requires DistinctLinks(links)
    modifies set k | 0 <= k < |links| :: links[k].1
    ensures forall k :: 0 <= k < |links| ==>
      Applied(links[k].1, socials, links[k].0, old(links[k].1.href))
  {
    var i := 0;
    while i < |links|
      invariant 0 <= i <= |links|
      invariant forall k :: 0 <= k < i ==>
        Applied(links[k].1, socials, links[k].0, old(links[k].1.href))
      invariant forall k :: i <= k < |links| ==> links[k].1.href == old(links[k].1.href)
    {
      var (key, el) := links[i];
      if key in socials && socials[key] != "" {
        el.href := socials[key];
        el.display := Flex;
      } else {
        el.display := Hidden;
      }
      i := i + 1;
    }
  }

  /** The part of `applyConfig` the rest of the page depends on: the music
      source and volume, then the social links. */
  method ApplyConfig(media: MediaElement, music: string,
                     links: seq<(string, SocialLink)>, socials: map<string, string>)
    requires DistinctLinks(links)
    modifies media, set k | 0 <= k < |links| :: links[k].1
    ensures media.src == music && media.volume == MusicVolume
    ensures media.paused == old(media.paused) && media.currentTime == old(media.currentTime)
    ensures forall k :: 0 <= k < |links| ==>
      Applied(links[k].1, socials, links[k].0, old(links[k].1.href))
  {
    media.src := music;
    media.volume := MusicVolume;
    ApplySocials(links, socials);
  }

  /** With two links configured, one to a URL and one absent, the first is
      shown with that URL and the second hidden, keeping its empty `href`. */
  method SocialsScenario() returns (steamDisplay: Display, steamHref: string,
                                    spotifyDisplay: Display, spotifyHref: string)
    ensures steamDisplay == Flex && steamHref == "https://steamcommunity.com/id/example"
    ensures spotifyDisplay == Hidden && spotifyHref == ""
  {
    var steam := new SocialLink();
    var spotify := new SocialLink();
    var links := [("steam", steam), ("spotify", spotify)];
    var socials := map["steam" := "https://steamcommunity.com/id/example"];
    ApplySocials(links, socials);
    assert Applied(links[0].1, socials, "steam", "");
    assert Applied(links[1].1, socials, "spotify", "");
    steamDisplay, steamHref := steam.display, steam.href;
    spotifyDisplay, spotifyHref := spotify.display, spotify.href;
  }

  /** An empty string counts as not configured: the link is hidden. */
  method EmptyUrlScenario() returns (display: Display)
    ensures display == Hidden
  {
    var link := new SocialLink();
    var links := [("discordUser", link)];
    ApplySocials(links, map["discordUser" := ""]);
    assert Applied(links[0].1, map["discordUser" := ""], "discordUser", "");
    display := link.display;
  }
}
