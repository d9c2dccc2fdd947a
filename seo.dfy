/** The SEO head: the prop defaults, the owner-suffixed title, the absolutised share
    image and the comma-joined keywords, and which tags carry which of them. */
module Seo {
  import opened Text

  /** The site owner's name, which every page title carries. */
  const owner: string := "Taher Abouzeid"

  /** The part of the title template after the caller's title. */
  const titleSuffix: string := " | " + owner

  /** What makes an image reference absolute. */
  const absoluteMark: string := "http"

  const defaultTitle: string := "Taher Abouzeid - Software Engineer"
  const defaultDescription: string :=
    "Portfolio of Taher Abouzeid, a software engineer based in New York, USA. Passionate about coding and creating innovative web applications."
  const defaultImage: string := "/assets/img/me.jpg"
  const defaultUrl: string := "https://taherabouzeid.com"
  const defaultKeywords: seq<string> :=
    ["software engineer", "web development", "portfolio", "react", "javascript", "typescript", "new york"]

  /** `fullTitle`: the title as given when it already names the owner, else suffixed. */
  function FullTitle(title: string): string {
    if Contains(title, owner) then title else title + titleSuffix
  }

  /** `fullImageUrl`: an image starting with `http` as given, else appended to the site URL. */
  function FullImageUrl(image: string, url: string): string {
    if StartsWith(image, absoluteMark) then image else url + image
  }

  /** `keywords.join(', ')` */
  function KeywordsContent(keywords: seq<string>): string {
    Join(keywords, ", ")
  }

  /** Props as the caller passes them; `None` is an omitted prop, which takes its default. */
  datatype Props = Props(
    title: Option<string>, description: Option<string>, image: Option<string>,
    url: Option<string>, pageType: Option<string>, author: Option<string>,
    keywords: Option<seq<string>>, noIndex: Option<bool>)

  /** The tag contents the head receives (the fixed theme, charset and viewport tags aside). */
  datatype Head = Head(
    title: string, metaTitle: string, description: string, author: string, keywords: string,
    robots: Option<string>,
    ogType: string, ogUrl: string, ogTitle: string, ogDescription: string, ogImage: string, ogSiteName: string,
    twitterCard: string, twitterUrl: string, twitterTitle: string, twitterDescription: string,
    twitterImage: string, twitterCreator: string,
    canonical: string)


  function Render(p: Props): Head {
    var title := p.title.GetOr(defaultTitle);
    var description := p.description.GetOr(defaultDescription);
    var image := p.image.GetOr(defaultImage);
    var url := p.url.GetOr(defaultUrl);
    var pageType := p.pageType.GetOr("website");
    var author := p.author.GetOr(owner);
    var keywords := p.keywords.GetOr(defaultKeywords);
    var noIndex := p.noIndex.GetOr(false);
    var fullTitle := FullTitle(title);
    var fullImageUrl := FullImageUrl(image, url);
    Head(
      fullTitle, fullTitle, description, author, KeywordsContent(keywords),
      if noIndex then Some("noindex, nofollow") else None,
      pageType, url, fullTitle, description, fullImageUrl, owner + " Portfolio",
      "summary_large_image", url, fullTitle, description, fullImageUrl, "@taherabouzeid",
      url)
  }

  // ---------------------------------------------------------------------------

  /** The suffixed form ends with the owner's name. */
  lemma SuffixNamesOwner(title: string)
    ensures OccursAt(title + titleSuffix, owner, |title| + 3)
  {
    assert title + titleSuffix == (title + " | ") + owner + "";
    StartsWithChars(owner, owner);
    OccursAtPart(title + " | ", owner, "", owner);
  }

  /** The full title always names the owner. */
  lemma FullTitleNamesOwner(title: string)
    ensures Contains(FullTitle(title), owner)
  {
    if !Contains(title, owner) {
      SuffixNamesOwner(title);
    }
  }

  /** The title is left as it is exactly when it already names the owner; otherwise
      the suffix is appended. */
  lemma FullTitleUnchangedIff(title: string)
    ensures FullTitle(title) == title <==> Contains(title, owner)
    ensures !Contains(title, owner) ==>
      EndsWith(FullTitle(title), titleSuffix) && FullTitle(title)[..|title|] == title
  {
    if !Contains(title, owner) {
      assert |FullTitle(title)| == |title| + |titleSuffix|;
      assert FullTitle(title)[..|title|] == title;
    }
  }

  /** Suffixing twice adds nothing. */
  lemma FullTitleIdempotent(title: string)
    ensures FullTitle(FullTitle(title)) == FullTitle(title)
  {
    FullTitleNamesOwner(title);
  }

  /** The image reference is left as it is exactly when it is already absolute or the
      site URL is empty; otherwise it is the site URL followed by the reference. */
  lemma FullImageUrlUnchangedIff(image: string, url: string)
    ensures FullImageUrl(image, url) == image <==> StartsWith(image, absoluteMark) || url == ""
    ensures !StartsWith(image, absoluteMark) ==> EndsWith(FullImageUrl(image, url), image)
  {
    if !StartsWith(image, absoluteMark) {
      assert |FullImageUrl(image, url)| == |url| + |image|;
      assert (url + image)[|url|..] == image;
    }
  }

  /** With an absolute site URL the result is absolute, so resolving it again changes nothing. */
  lemma FullImageUrlIdempotent(image: string, url: string)
    requires StartsWith(url, absoluteMark)
    ensures StartsWith(FullImageUrl(image, url), absoluteMark)
    ensures FullImageUrl(FullImageUrl(image, url), url) == FullImageUrl(image, url)
  {
    if !StartsWith(image, absoluteMark) {
      assert (url + image)[..|absoluteMark|] == url[..|absoluteMark|];
    }
  }

  /** The default site URL is absolute. */
  lemma DefaultUrlAbsolute()
    ensures StartsWith(defaultUrl, absoluteMark)
  {
    StartsWithChars(defaultUrl, absoluteMark);
  }

  /** The default title names the owner. */
  lemma DefaultTitleNamesOwner()
    ensures Contains(defaultTitle, owner)
  {
    assert defaultTitle == "" + owner + " - Software Engineer";
    StartsWithChars(owner, owner);
    OccursAtPart("", owner, " - Software Engineer", owner);
  }

  /** With every prop omitted: the title is the default title unchanged, the image is the
      site's portrait under the default URL, and nothing asks robots to stay away. */
  lemma Defaults()
    ensures Render(Props(None, None, None, None, None, None, None, None)).title == defaultTitle
    ensures Render(Props(None, None, None, None, None, None, None, None)).ogImage ==
      "https://taherabouzeid.com/assets/img/me.jpg"
    ensures Render(Props(None, None, None, None, None, None, None, None)).robots == None
    ensures Render(Props(None, None, None, None, None, None, None, None)).keywords == KeywordsContent(defaultKeywords)
  {
    DefaultTitleNamesOwner();
    assert defaultImage[0] != absoluteMark[0];
    assert defaultUrl + defaultImage == "https://taherabouzeid.com/assets/img/me.jpg";
  }

  /** Each keyword appears in the content, and adding one keyword appends it after `, `. */
  lemma KeywordsJoin(keywords: seq<string>, k: nat, extra: string)
    requires k < |keywords|
    ensures Contains(KeywordsContent(keywords), keywords[k])
    ensures KeywordsContent(keywords + [extra]) == KeywordsContent(keywords) + ", " + extra
  {
    JoinContains(keywords, k, ", ");
    JoinAppend(keywords, [extra], ", ");
  }

  /** The robots tag is there exactly when `noIndex` is set; the page, Open Graph and
      Twitter titles agree, as do both share images and all three URLs. */
  lemma HeadConsistent(p: Props)
    ensures Render(p).robots.Some? <==> p.noIndex == Some(true)
    ensures Render(p).title == Render(p).metaTitle == Render(p).ogTitle == Render(p).twitterTitle
    ensures Render(p).title == FullTitle(p.title.GetOr(defaultTitle))
    ensures Render(p).ogImage == Render(p).twitterImage ==
      FullImageUrl(p.image.GetOr(defaultImage), p.url.GetOr(defaultUrl))
    ensures Render(p).ogUrl == Render(p).twitterUrl == Render(p).canonical == p.url.GetOr(defaultUrl)
    ensures Contains(Render(p).title, owner)
  {
    FullTitleNamesOwner(p.title.GetOr(defaultTitle));
  }
}
