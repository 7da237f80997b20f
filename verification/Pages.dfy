/** Memory pages and the descriptors of their parts that a request transfers. */
module Pages {

  const PAGE_SIZE := 4096

  /** struct fuse_page_desc. */
  datatype PageDesc = PageDesc(offset: nat, length: nat)

  function Min(a: nat, b: nat): nat { if a < b then a else b }
}
