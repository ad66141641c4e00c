/**
 * The team section: active members only, each tile with mail, phone and
 * WhatsApp links; a carousel for more than three members.
 */
module TeamIntegration {
  import opened Js
  import opened Seqs
  import opened ApiServices
  import opened Dom

  const MemberClasses: seq<string> := ["col-lg-4", "col-md-6"]
  /** The carousel starts only above this many rendered members. */
  const CarouselThreshold: nat := 3

  predicate IsDigit(c: char) {
    '0' <= c <= '9'
  }

  /** `handle.replace(/[^0-9]/g, '')`: every character other than an ASCII digit removed. */
  function StripNonDigits(s: string): (r: string)
    ensures |r| <= |s|
    ensures forall i :: 0 <= i < |r| ==> IsDigit(r[i])
  {
    if s == [] then []
    else if IsDigit(s[0]) then [s[0]] + StripNonDigits(s[1..])
    else StripNonDigits(s[1..])
  }

  /** Stripping a concatenation strips each part: the digits keep their order. */
  lemma {:induction false} StripNonDigitsAppend(a: string, b: string)
    ensures StripNonDigits(a + b) == StripNonDigits(a) + StripNonDigits(b)
  {
    if a == [] {
      assert a + b == b;
    } else {
      assert (a + b)[0] == a[0];
      assert (a + b)[1..] == a[1..] + b;
      StripNonDigitsAppend(a[1..], b);
    }
  }

  /** A string of digits only is left as it is. */
  lemma {:induction false} StripNonDigitsKeepsDigitString(s: string)
    requires forall i :: 0 <= i < |s| ==> IsDigit(s[i])
    ensures StripNonDigits(s) == s
  {
    if s != [] {
      StripNonDigitsKeepsDigitString(s[1..]);
    }
  }

  /** Stripping twice is stripping once. */
  lemma {:induction false} StripNonDigitsIdempotent(s: string)
    ensures StripNonDigits(StripNonDigits(s)) == StripNonDigits(s)
  {
    StripNonDigitsKeepsDigitString(StripNonDigits(s));
  }

  /** The stripped handle is exactly the digits of the handle, in order: the generic filter agrees. */
  lemma {:induction false} StripNonDigitsIsDigitFilter(s: string)
    ensures StripNonDigits(s) == Filter(IsDigit, s)
  {
    if s != [] {
      StripNonDigitsIsDigitFilter(s[1..]);
    }
  }

  /** `member.isActive` is truthy. */
  predicate IsActive(m: Member) {
    TruthyBool(m.isActive)
  }

  const WhatsAppPrefix := "https://wa.me/"

  /**
   * The tile of one member: `mailto:` and `tel:` links, and a WhatsApp link
   * whose number is exactly the digits of the handle, in order.
   * `whatsapp.replace` needs a string handle.
   */
  function MemberTile(m: Member): (f: Fragment)
    requires m.whatsapp.Some?
    ensures f.MemberCard? && f.image == m.image && f.name == m.name && f.position == m.position
    ensures f.classes == MemberClasses
    ensures f.mailHref == "mailto:" + Interpolate(m.email) && f.telHref == "tel:" + Interpolate(m.phone)
    ensures |f.whatsappHref| >= |WhatsAppPrefix| && f.whatsappHref[..|WhatsAppPrefix|] == WhatsAppPrefix
    ensures f.whatsappHref[|WhatsAppPrefix|..] == Filter(IsDigit, m.whatsapp.value)
    ensures forall i :: |WhatsAppPrefix| <= i < |f.whatsappHref| ==> IsDigit(f.whatsappHref[i])
  {
    StripNonDigitsIsDigitFilter(m.whatsapp.value);
    MemberCard(m.image, m.name, m.position,
               "mailto:" + Interpolate(m.email), "tel:" + Interpolate(m.phone),
               WhatsAppPrefix + StripNonDigits(m.whatsapp.value), MemberClasses)
  }

  /**
   * How many members, from the front, have a string WhatsApp handle: the
   * render loop throws at the first one that does not.
   */
  function RenderablePrefix(ms: seq<Member>): (n: nat)
    ensures n <= |ms|
    ensures forall i :: 0 <= i < n ==> ms[i].whatsapp.Some?
    ensures n < |ms| ==> ms[n].whatsapp.None?
  {
    if ms == [] || ms[0].whatsapp.None? then 0 else 1 + RenderablePrefix(ms[1..])
  }

  /**
   * `displayTeamMembers`: without a container nothing happens. Otherwise the
   * container is cleared and a tile is appended per active member in input
   * order, until a member without a string WhatsApp handle makes the loop
   * throw; the carousel starts only when every active member was rendered,
   * there are more than three, and its library is loaded.
   */
  method DisplayTeamMembers(container: Container?, members: seq<Member>, carouselLoaded: bool)
    returns (carousel: bool)
    modifies container
    ensures container == null ==> !carousel
    ensures container != null ==>
      var active := Filter(IsActive, members);
      var n := RenderablePrefix(active);
      |container.children| == n &&
      (forall i :: 0 <= i < n ==> container.children[i] == MemberTile(active[i])) &&
      carousel == (n == |active| && carouselLoaded && |active| > CarouselThreshold)
  {
    if container == null {
      return false;
    }
    container.Clear();
    var active := Filter(IsActive, members);
    var i := 0;
    while i < |active|
      invariant 0 <= i <= RenderablePrefix(active)
      invariant |container.children| == i
      invariant forall k :: 0 <= k < i ==> container.children[k] == MemberTile(active[k])
    {
      if active[i].whatsapp.None? {
        // TypeError: the loop stops here and the error reaches initTeam's catch
        return false;
      }
      container.Append(MemberTile(active[i]));
      i := i + 1;
    }
    carousel := carouselLoaded && |active| > CarouselThreshold;
  }

  /** `initTeam`: an empty fetched list leaves the container as it was; otherwise the list is displayed. */
  method InitTeam(container: Container?, resp: ListResponse<RawMember>, carouselLoaded: bool)
    returns (carousel: bool)
    modifies container
    ensures |FetchTeam(resp)| == 0 ==> !carousel && (container != null ==> unchanged(container))
    ensures |FetchTeam(resp)| > 0 && container != null ==>
      var active := Filter(IsActive, FetchTeam(resp));
      var n := RenderablePrefix(active);
      |container.children| == n &&
      (forall i :: 0 <= i < n ==> container.children[i] == MemberTile(active[i])) &&
      carousel == (n == |active| && carouselLoaded && |active| > CarouselThreshold)
    ensures container == null ==> !carousel
  {
    var members := FetchTeam(resp);
    if |members| > 0 {
      carousel := DisplayTeamMembers(container, members, carouselLoaded);
    } else {
      carousel := false;
    }
  }
}
