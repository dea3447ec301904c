/** Optional values: absent JSON fields, prompts that were dismissed, searches that found nothing. */
module Wrappers {

  datatype Option<+T> = None | Some(value: T)
}
