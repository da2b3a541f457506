/**
 Stream names, session ids, channel identifiers, presence ids and epochs are all strings in the
 source, and the code modelled here only ever compares them.
 */
module Names {
  type Name(==, !new, 0)
}
