/** What an answer to the digest leads to, by its text (course_discovery/review/router.py:54-183). */
module ReviewAnswers {
  import opened Text
  import opened Courses
  import opened ReviewGraph

  predicate Approves(feedback: string) {
    feedback == "approve" || feedback == "publish" || feedback == "approved" || feedback == "looks good"
  }

  /** Rounds are left and the text neither is blank nor approves. */
  predicate Undecided(c: Config, rounds: nat, feedback: string) {
    rounds < c.maxRounds && feedback != "" && !Approves(feedback)
  }

  lemma BeginsIs(s: string, prefix: string)
    ensures Begins(s, prefix) <==> StartsWith(s, prefix)
  {
    if StartsWith(s, prefix) { assert s == prefix + s[|prefix|..]; }
    if Begins(s, prefix) {
      var rest :| s == prefix + rest;
      assert s[..|prefix|] == prefix;
    }
  }

  lemma IncludesIs(s: string, word: string)
    ensures Includes(s, word) <==> Mentions(s, word)
  {
    MentionsMeans(s, word);
    if Mentions(s, word) {
      var i :| 0 <= i <= |s| && StartsWith(s[i..], word);
      assert s == s[..i] + word + s[i..][|word|..];
    }
    if Includes(s, word) {
      var a: string, b: string :| s == a + word + b;
      assert s[|a|..] == word + b && s[|a|..][..|word|] == word;
    }
  }

  lemma ApprovesIs(feedback: string)
    ensures Approves(feedback) <==> feedback in ["approve", "publish", "approved", "looks good"]
  {
  }

  /** Without rounds left, or with a blank text, the run is discarded; an approving text publishes whatever else. */
  lemma Gates(c: Config, rounds: nat, feedback: string, reply: Option<Reply>)
    ensures rounds >= c.maxRounds || feedback == "" ==>
              Decide(c, rounds, Read(feedback), reply) == Decision(DISCARD, Some(true))
    ensures rounds < c.maxRounds && feedback != "" && Approves(feedback) ==>
              Decide(c, rounds, Read(feedback), reply) == Decision(PUBLISH, None)
  {
    ApprovesIs(feedback);
  }

  lemma ReadsOther(c: Config, rounds: nat, feedback: string)
    requires Undecided(c, rounds, feedback)
    ensures !Read(feedback).Blank? && !Read(feedback).Approval?
  {
    ApprovesIs(feedback);
  }

  /** What the model answers is done, whatever the text; if it fails, the run is discarded. */
  lemma ModelDecides(c: Config, rounds: nat, feedback: string, reply: Reply)
    requires Undecided(c, rounds, feedback)
    ensures Decide(c, rounds, Read(feedback), Some(reply)) ==
            (match reply case Chose(a) => Decision(a, None) case Broke => Decision(DISCARD, Some(true)))
  {
    ReadsOther(c, rounds, feedback);
  }

  lemma ReadWords(c: Config, rounds: nat, feedback: string)
    requires Undecided(c, rounds, feedback)
    ensures Read(feedback).RewriteWord? <==> Begins(feedback, "rewrite")
    ensures Read(feedback).AugmentWord? <==>
              !Begins(feedback, "rewrite") && (Begins(feedback, "augment") || Includes(feedback, "more"))
    ensures Read(feedback).ResetWord? <==>
              !Begins(feedback, "rewrite") && !Begins(feedback, "augment") && !Includes(feedback, "more")
              && Begins(feedback, "reset")
  {
    ReadsOther(c, rounds, feedback);
    BeginsIs(feedback, "rewrite");
    BeginsIs(feedback, "augment");
    BeginsIs(feedback, "reset");
    IncludesIs(feedback, "more");
  }

  lemma OnePrefix(s: string)
    requires Begins(s, "reset")
    ensures !Begins(s, "rewrite") && !Begins(s, "augment")
  {
    assert s[0] == "reset"[0] == 'r' && s[2] == "reset"[2] == 's';
    assert "rewrite"[2] == 'w' && "augment"[0] == 'a';
  }

  /** Without a model the words of the text decide, "rewrite" before "augment" and "more", and these before "reset". */
  lemma WordsDecide(c: Config, rounds: nat, feedback: string)
    requires Undecided(c, rounds, feedback)
    ensures var d := Decide(c, rounds, Read(feedback), None);
            (d == Decision(REWRITE, Some(false)) <==> Begins(feedback, "rewrite"))
            && (d == Decision(AUGMENT, Some(false)) <==>
                  !Begins(feedback, "rewrite") && (Begins(feedback, "augment") || Includes(feedback, "more")))
            && (d == Decision(RESET, Some(false)) <==> Begins(feedback, "reset") && !Includes(feedback, "more"))
            && (d == Decision(DISCARD, Some(true)) <==>
                  !Begins(feedback, "rewrite") && !Begins(feedback, "augment") && !Begins(feedback, "reset")
                  && !Includes(feedback, "more"))
  {
    ReadsOther(c, rounds, feedback);
    ReadWords(c, rounds, feedback);
    if Begins(feedback, "reset") { OnePrefix(feedback); }
  }

  // ----- from the answer to the next pass -----

  /** The model asks for a rewrite, or without one the text begins with the word. */
  ghost predicate AsksRewrite(feedback: string, reply: Option<Reply>) {
    reply == Some(Chose(REWRITE)) || (reply.None? && Begins(feedback, "rewrite"))
  }

  ghost predicate AsksAugment(feedback: string, reply: Option<Reply>) {
    reply == Some(Chose(AUGMENT))
    || (reply.None? && !Begins(feedback, "rewrite") && (Begins(feedback, "augment") || Includes(feedback, "more")))
  }

  ghost predicate AsksReset(feedback: string, reply: Option<Reply>) {
    reply == Some(Chose(RESET)) || (reply.None? && Begins(feedback, "reset") && !Includes(feedback, "more"))
  }

  lemma Asked(c: Config, rounds: nat, feedback: string, reply: Option<Reply>)
    requires Undecided(c, rounds, feedback)
    ensures AsksRewrite(feedback, reply) ==> Decide(c, rounds, Read(feedback), reply).action == REWRITE
    ensures AsksAugment(feedback, reply) ==> Decide(c, rounds, Read(feedback), reply).action == AUGMENT
    ensures AsksReset(feedback, reply) ==> Decide(c, rounds, Read(feedback), reply).action == RESET
  {
    if reply.Some? { ModelDecides(c, rounds, feedback, reply.value); } else { WordsDecide(c, rounds, feedback); }
  }

  /** The next pass has the queries and the iteration so far. */
  predicate OnTop(s: State, t: State) {
    t.pass == |s.history| + 1 == |t.history| && t.research.pass == t.pass
    && t.research.completed == s.research.completed && t.research.iteration == s.research.iteration
  }

  lemma AnswerEnabled(c: Config, s: State, feedback: string, redacted: string, reply: Option<Reply>)
    requires s.place == InterpretReviewFeedback && feedback != "" && redacted != ""
    ensures Enabled(c, s, Reviewed(Read(feedback), redacted, reply))
  {
  }

  /** A rewrite answer searches again, on top of the queries run so far. */
  lemma RewriteKeepsLedger(c: Config, s: State, feedback: string, redacted: string, reply: Option<Reply>)
    requires Anchored(c, s) && s.place == InterpretReviewFeedback && redacted != ""
    requires Undecided(c, |s.history|, feedback) && AsksRewrite(feedback, reply)
    ensures var t := Plainly(c, Next(c, s, Reviewed(Read(feedback), redacted, reply)), 3);
            t.place == LoadUserProfile && t.routing == Some(REWRITE) && OnTop(s, t)
  {
    Asked(c, |s.history|, feedback, reply);
    AnswerEnabled(c, s, feedback, redacted, reply);
    LoopBackKeepsLedger(c, s, Read(feedback), redacted, reply);
  }

  /** An augment answer goes straight to the gap search, on top of the queries run so far. */
  lemma AugmentKeepsLedger(c: Config, s: State, feedback: string, redacted: string, reply: Option<Reply>)
    requires Anchored(c, s) && s.place == InterpretReviewFeedback && redacted != ""
    requires Undecided(c, |s.history|, feedback) && AsksAugment(feedback, reply)
    ensures var t := Plainly(c, Next(c, s, Reviewed(Read(feedback), redacted, reply)), 3);
            t.place == PlanGapSearch && t.routing == Some(AUGMENT) && OnTop(s, t)
  {
    Asked(c, |s.history|, feedback, reply);
    AnswerEnabled(c, s, feedback, redacted, reply);
    LoopBackKeepsLedger(c, s, Read(feedback), redacted, reply);
  }

  /** A reset answer parses the request again and starts the next pass with an empty ledger. */
  lemma ResetEmptiesLedger(c: Config, s: State, feedback: string, redacted: string, reply: Option<Reply>,
                           filters: Filters)
    requires Anchored(c, s) && s.place == InterpretReviewFeedback && redacted != ""
    requires Undecided(c, |s.history|, feedback) && AsksReset(feedback, reply)
    ensures var parsing := Next(c, s, Reviewed(Read(feedback), redacted, reply));
            parsing.place == ParseUserRequest
            && var t := Plainly(c, Next(c, parsing, Parsed(filters)), 3);
               t.place == LoadUserProfile && t.research.filters == Some(filters)
               && t.pass == |s.history| + 1 == |t.history|
               && t.research.completed == [] && t.research.iteration == 0
  {
    Asked(c, |s.history|, feedback, reply);
    AnswerEnabled(c, s, feedback, redacted, reply);
    ResetClearsLedger(c, s, Read(feedback), redacted, reply, filters);
  }
}
