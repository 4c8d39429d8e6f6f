/**
  The search-type tags that flow from the classifier and the command line
  into the dispatcher. A tag is a plain string; compound social tags such as
  `social_gab_username` carry a platform and a subtype after the prefix.
*/
module Tags {
  const SOCIAL_PREFIX := "social_"
  const UTILITY_PREFIX := "utility_"

  const URL_EXPANSION := "utility_url_expansion"
  const IMAGE_ANALYSIS := "image_analysis"
  const SOCIAL_USERNAME := "social_username"
  const BULK_USERNAME := "bulk_username"
  const EMAIL_LOOKUP := "social_linkedin_email_lookup"
  const TRAINER_CODE := "utility_pokemon_go_trainer_code"

  /** The default pair: every social platform plus the bulk username check. */
  const USERNAME_PAIR := [SOCIAL_USERNAME, BULK_USERNAME]

  /** The six fixed tags are pairwise different, so a list of them says which searches run. */
  lemma TagsDistinct()
    ensures URL_EXPANSION != IMAGE_ANALYSIS && URL_EXPANSION != SOCIAL_USERNAME && URL_EXPANSION != BULK_USERNAME
    ensures URL_EXPANSION != EMAIL_LOOKUP && URL_EXPANSION != TRAINER_CODE
    ensures IMAGE_ANALYSIS != SOCIAL_USERNAME && IMAGE_ANALYSIS != BULK_USERNAME && IMAGE_ANALYSIS != EMAIL_LOOKUP
    ensures IMAGE_ANALYSIS != TRAINER_CODE
    ensures SOCIAL_USERNAME != BULK_USERNAME && SOCIAL_USERNAME != EMAIL_LOOKUP && SOCIAL_USERNAME != TRAINER_CODE
    ensures BULK_USERNAME != EMAIL_LOOKUP && BULK_USERNAME != TRAINER_CODE && EMAIL_LOOKUP != TRAINER_CODE
  {
    assert |URL_EXPANSION| == 21 && |TRAINER_CODE| == 31;
    assert |SOCIAL_USERNAME| == 15 && |EMAIL_LOOKUP| == 28;
  }
}
