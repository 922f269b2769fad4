/**
  The shared footer (js/footer.js): a constant template, and the adjustment `initFooter`
  makes to it on pages under `/admin/`, where relative links and the logo need a `../`
  prefix.

  The template is a sequence of pieces: literal markup, `href="…"` attributes and `src="…"`
  attributes. The two global regular-expression replacements become maps over these
  pieces; the literal markup of the template holds no attribute of either kind.
*/
module Footer {

  predicate StartsWith(s: string, prefix: string)
  {
    |prefix| <= |s| && s[..|prefix|] == prefix
  }

  /** `s.includes(sub)`. */
  predicate Contains(s: string, sub: string)
  {
    StartsWith(s, sub) || (|s| > 0 && Contains(s[1..], sub))
  }

  /** The links the rewrite leaves alone: external (`http…`), anchors, and already parent-relative or absolute paths. */
  predicate Exempt(path: string)
  {
    StartsWith(path, "http") || StartsWith(path, "#") || StartsWith(path, "../") || StartsWith(path, "/")
  }

  /**
    The callback of the `href` replacement on admin pages. Only the prefixes `http`, `#`,
    `../` and `/` are exempt, so `tel:` and `mailto:` links get the prefix as well.
  */
  function RewriteHref(path: string): (r: string)
    ensures Exempt(r)
    ensures r == path || r == "../" + path
  {
    if StartsWith(path, "http") || StartsWith(path, "#") then path
    else if !StartsWith(path, "../") && !StartsWith(path, "/") then
      assert StartsWith("../" + path, "../");
      "../" + path
    else path
  }

  /** The rewrite keeps exactly the exempt links and prefixes every other one with `../`. */
  lemma RewriteHrefCases(path: string)
    ensures RewriteHref(path) == path <==> Exempt(path)
    ensures !Exempt(path) ==> RewriteHref(path) == "../" + path
  {
    if RewriteHref(path) == path {
      assert Exempt(path);
    }
  }

  /** A rewritten link is exempt, so rewriting twice is the same as rewriting once. */
  lemma RewriteHrefIdempotent(path: string)
    ensures RewriteHref(RewriteHref(path)) == RewriteHref(path)
  {
    RewriteHrefCases(RewriteHref(path));
  }

  /** A link whose first character cannot begin an exempt prefix is rewritten to `../` + link. */
  lemma RelativeLinkIsPrefixed(path: string)
    requires |path| > 0 && path[0] != 'h' && path[0] != '#' && path[0] != '.' && path[0] != '/'
    ensures RewriteHref(path) == "../" + path
  {
    FirstCharDiffers(path, "http");
    FirstCharDiffers(path, "#");
    FirstCharDiffers(path, "../");
    FirstCharDiffers(path, "/");
  }

  /** `tel:` and `mailto:` links are not exempt: on admin pages they get the prefix like page links. */
  lemma TelAndMailtoArePrefixed(path: string)
    requires StartsWith(path, "tel:") || StartsWith(path, "mailto:")
    ensures RewriteHref(path) == "../" + path
  {
    assert path[0] == path[..1][0];
    if StartsWith(path, "tel:") {
      assert path[..4][0] == 't';
    } else {
      assert path[..7][0] == 'm';
    }
    RelativeLinkIsPrefixed(path);
  }

  lemma FirstCharDiffers(s: string, prefix: string)
    requires |s| > 0 && |prefix| > 0 && s[0] != prefix[0]
    ensures !StartsWith(s, prefix)
  {
    if |prefix| <= |s| {
      assert s[..|prefix|][0] != prefix[0];
    }
  }

  /** A piece of the footer markup. */
  datatype Piece = Text(markup: string) | Href(path: string) | Src(path: string)

  function RenderPiece(p: Piece): string
  {
    match p
    case Text(m) => m
    case Href(path) => "href=\"" + path + "\""
    case Src(path) => "src=\"" + path + "\""
  }

  function Render(pieces: seq<Piece>): string
  {
    if pieces == [] then "" else RenderPiece(pieces[0]) + Render(pieces[1..])
  }

  /** What `getFooter()` returns: the footer template, whitespace between tags aside. */
  const FooterTemplate: seq<Piece> :=
    [ Text("<!-- Footer -->\n<footer class=\"footer-modern\">\n<div class=\"container\">\n<div class=\"footer-main\">\n"
           + "<div class=\"footer-left\">\n<div class=\"footer-brand-block\">\n<img "),
      Src("logo.jpeg"),
      Text(" alt=\"MY FLY CLOUDLY TOURS\" class=\"footer-logo-image\" style=\"height: 60px; width: auto;\">\n"
           + "<h1 class=\"footer-title\">MY FLY CLOUDLY TOURS</h1>\n</div>\n"
           + "<p class=\"footer-description\" data-i18n=\"footer.description\">Experience the sky like never before. "
           + "Your journey to aviation excellence starts here.</p>\n</div>\n"
           + "<div class=\"footer-right\">\n<div class=\"footer-grid\">\n<div class=\"footer-nav-block\">\n"
           + "<span class=\"footer-label\" data-i18n=\"footer.navigate\">Navigate</span>\n<nav class=\"footer-nav\">\n<a "),
      Href("index.html"),
      Text(" class=\"footer-nav-link\" data-i18n=\"nav.home\">Home</a>\n<a "),
      Href("services.html"),
      Text(" class=\"footer-nav-link\" data-i18n=\"nav.services\">Services</a>\n<a "),
      Href("about.html"),
      Text(" class=\"footer-nav-link\" data-i18n=\"nav.about\">About</a>\n<a "),
      Href("booking.html"),
      Text(" class=\"footer-nav-link\" data-i18n=\"footer.bookNow\">Book Now</a>\n</nav>\n</div>\n"
           + "<div class=\"footer-contact-block\">\n"
           + "<span class=\"footer-label\" data-i18n=\"footer.getInTouch\">Get in Touch</span>\n"
           + "<div class=\"footer-contact-info\">\n<a "),
      Href("tel:+601160683066"),
      Text(" class=\"footer-contact-link\">\n<span class=\"contact-label\" data-i18n=\"footer.phone\">Phone</span>\n"
           + "<span class=\"contact-value\" data-i18n=\"footer.phoneNumber\">+60 11-6068 3066</span>\n</a>\n<a "),
      Href("mailto:info@edustep.com.my"),
      Text(" class=\"footer-contact-link\">\n<span class=\"contact-label\" data-i18n=\"footer.email\">Email</span>\n"
           + "<span class=\"contact-value\">info@edustep.com.my</span>\n</a>\n<div class=\"footer-contact-link\">\n"
           + "<span class=\"contact-label\" data-i18n=\"footer.location\">Location</span>\n"
           + "<span class=\"contact-value\" data-i18n=\"footer.locationAddress\">EduStep Global Solutions Ltd. (LL21756)</span>\n"
           + "</div>\n</div>\n</div>\n</div>\n</div>\n</div>\n</div>\n</footer>")
    ]

  /**
    One piece after both admin replacements: a non-empty `href` through `RewriteHref`
    (the pattern `[^"]+` does not match an empty one), and `src="logo.jpeg"` to `src="../logo.jpeg"`.
  */
  function AdjustPiece(p: Piece): Piece
  {
    match p
    case Text(_) => p
    case Href(path) => if path == "" then p else Href(RewriteHref(path))
    case Src(path) => if path == "logo.jpeg" then Src("../logo.jpeg") else p
  }

  /** The admin-page adjustment of the whole template. */
  function AdjustForAdmin(pieces: seq<Piece>): seq<Piece>
  {
    seq(|pieces|, i requires 0 <= i < |pieces| => AdjustPiece(pieces[i]))
  }

  /** Adjusting an already adjusted footer changes nothing. */
  lemma AdjustForAdminIdempotent(pieces: seq<Piece>)
    ensures AdjustForAdmin(AdjustForAdmin(pieces)) == AdjustForAdmin(pieces)
  {
    var once := AdjustForAdmin(pieces);
    forall i | 0 <= i < |pieces|
      ensures AdjustPiece(once[i]) == once[i]
    {
      match pieces[i]
      case Href(path) => RewriteHrefIdempotent(path);
      case _ =>
    }
  }

  /** On an admin page every link of the footer, phone and mail included, and the logo get the `../` prefix. */
  lemma AdminFooterLinks()
    ensures var adjusted := AdjustForAdmin(FooterTemplate);
            && (forall i :: 0 <= i < |adjusted| && adjusted[i].Href? ==>
                  adjusted[i].path == "../" + FooterTemplate[i].path)
            && (forall i :: 0 <= i < |adjusted| && FooterTemplate[i] == Src("logo.jpeg") ==>
                  adjusted[i] == Src("../logo.jpeg"))
            && FooterTemplate[1] == Src("logo.jpeg")
  {
    var footer := FooterTemplate;
    forall i | 0 <= i < |footer| && footer[i].Href?
      ensures RewriteHref(footer[i].path) == "../" + footer[i].path
    {
      RelativeLinkIsPrefixed(footer[i].path);
    }
  }

  /** Where `initFooter` puts the footer: in place of an existing one, or at the end of the body. */
  datatype Placement = ReplaceExisting(html: string) | AppendToBody(html: string)

  /** `initFooter`, given the page's path and whether it already has a footer. */
  function InitFooter(pathname: string, hasExistingFooter: bool): (p: Placement)
    ensures p.ReplaceExisting? <==> hasExistingFooter
    ensures !Contains(pathname, "/admin/") ==> p.html == Render(FooterTemplate)
    ensures Contains(pathname, "/admin/") ==> p.html == Render(AdjustForAdmin(FooterTemplate))
  {
    var isAdminPage := Contains(pathname, "/admin/");
    if hasExistingFooter then
      var footerHtml := if isAdminPage then Render(AdjustForAdmin(FooterTemplate)) else Render(FooterTemplate);
      ReplaceExisting(footerHtml)
    else
      var footerHtml := if isAdminPage then Render(AdjustForAdmin(FooterTemplate)) else Render(FooterTemplate);
      AppendToBody(footerHtml)
  }

  /** Replacing an existing footer and appending a new one insert the same markup. */
  lemma BothBranchesAgree(pathname: string)
    ensures InitFooter(pathname, true).html == InitFooter(pathname, false).html
  {
  }
}
