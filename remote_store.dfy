/**
 The GitHub contents file that holds database.json, seen from api/app.js
 (lines 13-62): a document plus the blob sha GitHub keeps beside it. The code
 reads the sha from the metadata endpoint and sends it back with every PUT.
 Whether the sha is current is decided by GitHub, not by this code. It is
 stated here only as the predicate Guards, an assumption about the store.
 */
module RemoteStore {
  import opened Entries

  /** The blob sha GitHub returns; opaque to the code. */
  type Token = string

  /** The remote file: its current JSON array and its current sha. */
  datatype Store = Store(content: Document, sha: Token)

  /** The PUT body: new content, commit message and the sha it claims to replace. */
  datatype Commit = Commit(content: Document, message: string, sha: Token)

  /**
   GitHub's answer to a PUT: success with the new sha, a non-ok response with
   its body text, or a request that threw (`fetch` rejected) with that error's message.
   */
  datatype PutReply = Accepted(newSha: Token) | Rejected(text: string) | PutThrew(message: string)

  /**
   The metadata GET: a JSON body whose `sha` field is absent or holds a string,
   or a request that threw (`fetch` rejected, or the body is not JSON) with that error's message.
   */
  datatype MetaReply = NoSha | Sha(sha: Token) | MetaThrew(message: string)

  /** `meta.sha` is truthy: present and not the empty string. */
  predicate HasSha(m: MetaReply)
    ensures HasSha(m) ==> m.Sha?
    ensures m.Sha? ==> (HasSha(m) <==> |m.sha| > 0)
  {
    m.Sha? && m.sha != ""
  }

  /**
   Effect of a PUT on the store: replaced by the commit on success, untouched
   otherwise. The model takes a PUT that threw as one GitHub never applied.
   */
  function Apply(s: Store, c: Commit, reply: PutReply): (t: Store)
    ensures reply.Accepted? ==> t.content == c.content && t.sha == reply.newSha
    ensures !reply.Accepted? ==> t == s
  {
    match reply
    case Accepted(newSha) => Store(c.content, newSha)
    case _ => s
  }

  /**
   GitHub's optimistic-concurrency check, as assumed here: it accepts only the
   current sha. The blob sha depends on the content, so a commit that changes
   the content also changes the sha. A commit that keeps the content may keep it.
   */
  predicate Guards(s: Store, c: Commit, reply: PutReply) {
    reply.Accepted? ==> c.sha == s.sha && (c.content != s.content ==> reply.newSha != s.sha)
  }

  /**
   Two writers that presented the same sha: once the first commit is accepted
   and has changed the content, a store that guards its sha rejects the second.
   So the second cannot overwrite the first.
   */
  lemma StaleShaRejected(s: Store, first: Commit, r1: PutReply, second: Commit, r2: PutReply)
    requires first.sha == second.sha && first.content != s.content
    requires Guards(s, first, r1) && r1.Accepted?
    requires Guards(Apply(s, first, r1), second, r2)
    ensures !r2.Accepted?
    ensures Apply(Apply(s, first, r1), second, r2).content == first.content
  {
  }

  /**
   The guard need not protect a second writer when the first commit left the
   content as it was: in this run, which Guards allows, the sha stays the
   same, and a second writer holding it is accepted.
   */
  lemma UnchangedCommitLetsSecondThrough()
    ensures var s := Store([Entry("0811", Active)], "S");
            var first := Commit([Entry("0811", Active)], "Delete nomor 0900", "S");
            var second := Commit([], "Delete nomor 0811", "S");
            && Guards(s, first, Accepted("S"))
            && Guards(Apply(s, first, Accepted("S")), second, Accepted("T"))
            && Apply(Apply(s, first, Accepted("S")), second, Accepted("T")).content == []
  {
  }
}
