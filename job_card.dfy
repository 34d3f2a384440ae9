/** The job card: what a listing shows for one job, computed from its props. */
module JobCard {
  import opened Common
  import opened Database
  import opened Seqs

  /** The badge colours of the UI kit. */
  datatype Variant = Default | Info | Success | Warning | Danger

  /**
   * The card's props: the job with its company, whether an `onBookmark`
   * handler was passed, and `isBookmarked`.
   */
  datatype Props = Props(job: JobWithCompany, hasBookmarkHandler: bool, isBookmarked: bool)

  /** At most this many technology badges are shown. */
  const MaxShownTags: nat := 5

  /** `tech_stack.slice(0, 5)`: the leading tags, in order, at most five. */
  function ShownTags(techStack: seq<string>): (r: seq<string>)
    ensures |r| == Min(MaxShownTags, |techStack|)
    ensures r <= techStack
  {
    Take(techStack, MaxShownTags)
  }

  /** The "+N more" badge: present exactly when some tags are not shown, counting them. */
  function MoreBadge(techStack: seq<string>): (r: Option<nat>)
    ensures r.Some? <==> |techStack| > MaxShownTags
    ensures r.Some? ==> |ShownTags(techStack)| + r.value == |techStack|
  {
    if |techStack| > MaxShownTags then Some(|techStack| - MaxShownTags) else None
  }

  /** Every tag is either shown as a badge or counted in "+N more", never both. */
  lemma TagsAccountedFor(techStack: seq<string>)
    ensures |ShownTags(techStack)| + MoreBadge(techStack).GetOr(0) == |techStack|
    ensures MoreBadge(techStack).None? ==> ShownTags(techStack) == techStack
  {
  }

  /** The bookmark button is drawn exactly when a handler was passed. */
  predicate ShowsBookmarkButton(p: Props): (b: bool)
    ensures b <==> p.hasBookmarkHandler
  {
    p.hasBookmarkHandler
  }

  /** The "Closed" badge is drawn exactly for a closed job. */
  predicate ShowsClosedBadge(p: Props): (b: bool)
    ensures b <==> p.job.job.status != Open
  {
    p.job.job.status == Closed
  }

  /** The experience badge: senior roles stand out, every other level is plain. */
  function ExperienceVariant(level: ExperienceLevel): (v: Variant)
    ensures v == Warning <==> level == Senior
    ensures v != Warning ==> v == Default
  {
    if level == Senior then Warning else Default
  }
}
