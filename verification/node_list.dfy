/**
 * The participant/partner detail panel (`src/components/NodeList.tsx`): the two
 * handle-extraction helpers and the selection state driven by the window-level
 * "nodeSelected" / "partnerSelected" events and the close action.
 */
module NodeList {
  import opened Wrappers
  import opened Text
  import opened Types

  /**
   * `url.split("/").pop() || url`: the text after the last "/", or the whole
   * input when that text is empty.
   */
  function ExtractTwitterUsername(url: string): (r: string)
    ensures r == url || '/' !in r
  {
    var parts := Split(url, '/');
    SplitPiecesFree(url, '/');
    var last := parts[|parts| - 1];
    if last != "" then last else url
  }

  /**
   * The handle is a suffix of the input that follows its last "/"; the input is
   * returned unchanged exactly when it is empty, has no "/", or ends in "/".
   */
  lemma TwitterUsernameSpec(url: string)
    ensures var r := ExtractTwitterUsername(url);
      |r| <= |url| && url[|url| - |r|..] == r &&
      (r != url ==> r != "" && '/' !in r && url[|url| - |r| - 1] == '/') &&
      (r == url <==> url == "" || '/' !in url || url[|url| - 1] == '/')
  {
    var parts := Split(url, '/');
    var last := parts[|parts| - 1];
    LastPieceIsSuffix(url, '/');
    SplitPiecesFree(url, '/');
    assert '/' !in last;
    if last == "" {
      assert ExtractTwitterUsername(url) == url;
    } else {
      assert ExtractTwitterUsername(url) == last;
      assert url[|url| - 1] == last[|last| - 1];
      if '/' in url {
        assert last != url;
      } else {
        assert last == url;
      }
    }
  }

  /** `s.replace(/^in\//, "")`: drop a leading "in/". */
  function DropInPrefix(s: string): (r: string)
    ensures '/' !in s ==> r == s
  {
    if IsPrefix("in/", s) then
      assert s[2] == '/';
      s[3..]
    else s
  }

  /** `url.split("?")[0]`: the text before the first "?" (all of it when there is none). */
  function QueryFree(url: string): (p: string)
    ensures '?' !in p && IsPrefix(p, url)
    ensures p == url || url[|p|] == '?'
  {
    var parts := Split(url, '?');
    JoinSplit(url, '?');
    SplitPiecesFree(url, '?');
    assert |parts| > 1 ==> Join(parts, '?') == parts[0] + ['?'] + Join(parts[1..], '?');
    parts[0]
  }

  /**
   * `extractLinkedInUsername`: cut at the first "?", drop trailing slashes,
   * take the last non-empty "/"-segment and strip a leading "in/". When there is
   * no such segment, `parts[parts.length - 1]` is `undefined`, the call to
   * `replace` throws, and the handler returns the input unchanged.
   */
  function ExtractLinkedInUsername(url: string): (r: string)
  {
    var withoutParams := QueryFree(url);
    var cleanUrl := TrimTrailing(withoutParams, '/');
    var parts := NonEmpty(Split(cleanUrl, '/'));
    if |parts| == 0 then url
    else DropInPrefix(parts[|parts| - 1])
  }

  /**
   * The LinkedIn handle is the last "/"-segment of the part before the first "?"
   * once its trailing slashes are gone; it is non-empty and holds neither "/" nor
   * "?". When that part is nothing but slashes, the input comes back unchanged.
   */
  lemma LinkedInUsernameSpec(url: string)
    ensures var t := TrimTrailing(QueryFree(url), '/');
      var r := ExtractLinkedInUsername(url);
      (t == "" ==> r == url) &&
      (t != "" ==> r == Split(t, '/')[|Split(t, '/')| - 1] && r != "" && '/' !in r && '?' !in r &&
                   |r| <= |t| && t[|t| - |r|..] == r)
  {
    var q := QueryFree(url);
    var t := TrimTrailing(q, '/');
    if t == "" {
      assert Split(t, '/') == [""];
      assert NonEmpty([""]) == [];
    } else {
      var pieces := Split(t, '/');
      LastPieceOfCleanPath(t);
      NonEmptyKeepsLast(pieces);
      NoQueryInSuffix(q, t, pieces[|pieces| - 1]);
    }
  }

  /** Without trailing slashes, the last "/"-piece is a non-empty, slash-free suffix. */
  lemma LastPieceOfCleanPath(t: string)
    requires t != "" && t[|t| - 1] != '/'
    ensures var pieces := Split(t, '/');
      var last := pieces[|pieces| - 1];
      last != "" && '/' !in last && |last| <= |t| && t[|t| - |last|..] == last
  {
    LastPieceIsSuffix(t, '/');
    SplitPiecesFree(t, '/');
  }

  /** A suffix of a prefix of a "?"-free string is "?"-free. */
  lemma NoQueryInSuffix(q: string, t: string, last: string)
    requires '?' !in q && IsPrefix(t, q)
    requires |last| <= |t| && t[|t| - |last|..] == last
    ensures '?' !in last
  {
    forall k | 0 <= k < |last| ensures last[k] != '?' {
      assert last[k] == t[|t| - |last| + k] == q[|t| - |last| + k];
    }
  }

  /** Two inputs with the same non-empty cleaned path give the same handle. */
  lemma SameCleanPathSameHandle(u: string, v: string)
    requires TrimTrailing(QueryFree(u), '/') == TrimTrailing(QueryFree(v), '/') != ""
    ensures ExtractLinkedInUsername(u) == ExtractLinkedInUsername(v)
  {
    LinkedInUsernameSpec(u);
    LinkedInUsernameSpec(v);
  }

  /** A trailing slash never changes a successfully extracted LinkedIn handle. */
  lemma LinkedInIgnoresTrailingSlash(url: string)
    requires '?' !in url && TrimTrailing(url, '/') != ""
    ensures ExtractLinkedInUsername(url + "/") == ExtractLinkedInUsername(url)
  {
    var longer := url + "/";
    assert '?' !in longer by {
      assert forall k :: 0 <= k < |url| ==> longer[k] == url[k];
    }
    NoQueryUnchanged(url);
    NoQueryUnchanged(longer);
    assert longer[..|longer| - 1] == url;
    SameCleanPathSameHandle(longer, url);
  }

  lemma NoQueryUnchanged(url: string)
    requires '?' !in url
    ensures QueryFree(url) == url
  {
  }

  /** Everything from the first "?" on is ignored when a handle is found. */
  lemma LinkedInIgnoresQuery(path: string, query: string)
    requires '?' !in path && TrimTrailing(path, '/') != ""
    ensures ExtractLinkedInUsername(path + "?" + query) == ExtractLinkedInUsername(path)
  {
    var s := path + "?" + query;
    assert s[|path|] == '?';
    var p := QueryFree(s);
    assert |p| <= |path| by {
      assert forall k :: 0 <= k < |p| ==> s[k] == p[k] != '?';
    }
    assert s[..|path|] == path;
    assert p == path;
    SameCleanPathSameHandle(s, path);
  }

  class NodeListPanel {
    var selectedNode: Option<UserNode>
    var selectedPartner: Option<Partner>
    var globeRotating: bool

    /** A participant and a partner are never shown at the same time. */
    ghost predicate Valid()
      reads this
    {
      !(selectedNode.Some? && selectedPartner.Some?)
    }

    constructor (globeRotating: bool)
      ensures Valid()
      ensures selectedNode == None && selectedPartner == None
      ensures this.globeRotating == globeRotating
    {
      selectedNode := None;
      selectedPartner := None;
      this.globeRotating := globeRotating;
    }

    /** Whether the detail card (rather than the hint text) is rendered. */
    predicate ShowsDetails()
      reads this
    {
      selectedNode.Some? || selectedPartner.Some?
    }

    /** `handleNodeSelected`: a present `userData` selects it and clears the partner. */
    method OnNodeSelected(userData: Option<UserNode>)
      requires Valid()
      modifies this
      ensures Valid()
      ensures userData.Some? ==> selectedNode == userData && selectedPartner == None && ShowsDetails()
      ensures userData.None? ==> selectedNode == old(selectedNode) && selectedPartner == old(selectedPartner)
      ensures ShowsDetails() == (userData.Some? || old(ShowsDetails()))
      ensures globeRotating == old(globeRotating)
    {
      if userData.Some? {
        selectedNode := userData;
        selectedPartner := None;
      }
    }

    /** `handlePartnerSelected`: a present partner selects it and clears the participant. */
    method OnPartnerSelected(partner: Option<Partner>)
      requires Valid()
      modifies this
      ensures Valid()
      ensures partner.Some? ==> selectedPartner == partner && selectedNode == None && ShowsDetails()
      ensures partner.None? ==> selectedNode == old(selectedNode) && selectedPartner == old(selectedPartner)
      ensures ShowsDetails() == (partner.Some? || old(ShowsDetails()))
      ensures globeRotating == old(globeRotating)
    {
      if partner.Some? {
        selectedPartner := partner;
        selectedNode := None;
      }
    }

    /** `handleClose`: clear both selections and ask the globe to rotate again. */
    method Close()
      requires Valid()
      modifies this
      ensures Valid() && !ShowsDetails()
      ensures selectedNode == None && selectedPartner == None && globeRotating
    {
      selectedNode := None;
      selectedPartner := None;
      globeRotating := true;
    }
  }
}
