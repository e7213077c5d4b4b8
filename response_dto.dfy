/** `ProductResponseDto` and `FolderResponseDto`: the flattened view of a product
    and the folders it is filed under. */
module ResponseDto {
  import opened Entities

  /** `FolderResponseDto`: a folder's id and name. */
  datatype FolderView = FolderView(id: int, name: string)

  /** `ProductResponseDto`. */
  datatype ProductView = ProductView(id: int, title: string, link: string, image: string,
                                     lprice: int32, myprice: int32, productFolderList: seq<FolderView>)

  function FolderViewOf(f: Folder): FolderView {
    FolderView(f.id, f.name)
  }

  /** Every association row names a folder that `folders` holds. */
  predicate FoldersResolve(pfs: seq<ProductFolder>, folders: map<int, Folder>) {
    forall k :: 0 <= k < |pfs| ==> pfs[k].folderId in folders
  }

  /** The folder list the constructor's loop appends, one entry per association row. */
  function FolderViews(pfs: seq<ProductFolder>, folders: map<int, Folder>): seq<FolderView>
    requires FoldersResolve(pfs, folders)
  {
    if pfs == [] then []
    else FolderViews(pfs[..|pfs| - 1], folders) + [FolderViewOf(folders[pfs[|pfs| - 1].folderId])]
  }

  /** The view of product `p` whose association list is `pfs`. */
  function View(p: Product, pfs: seq<ProductFolder>, folders: map<int, Folder>): ProductView
    requires FoldersResolve(pfs, folders)
  {
    ProductView(p.id, p.title, p.link, p.image, p.lprice, p.myprice, FolderViews(pfs, folders))
  }

  /** The folder list has one entry per association, and the i-th entry is the
      view of the i-th association's folder. */
  lemma {:induction false} FolderViewsAt(pfs: seq<ProductFolder>, folders: map<int, Folder>, i: int)
    requires FoldersResolve(pfs, folders)
    ensures |FolderViews(pfs, folders)| == |pfs|
    ensures 0 <= i < |pfs| ==> FolderViews(pfs, folders)[i] == FolderViewOf(folders[pfs[i].folderId])
  {
    if pfs != [] {
      var init := pfs[..|pfs| - 1];
      FolderViewsAt(init, folders, i);
    }
  }

  /** The constructor `ProductResponseDto(Product)`: copies the six scalar fields,
      then walks the product's association list appending one folder view per row.
      It takes its inputs as values and so changes none of them. */
  method BuildView(p: Product, pfs: seq<ProductFolder>, folders: map<int, Folder>) returns (v: ProductView)
    requires FoldersResolve(pfs, folders)
    ensures v.id == p.id && v.title == p.title && v.link == p.link && v.image == p.image
    ensures v.lprice == p.lprice && v.myprice == p.myprice
    ensures |v.productFolderList| == |pfs|
    ensures forall i :: 0 <= i < |pfs| ==>
              v.productFolderList[i] == FolderViewOf(folders[pfs[i].folderId])
    ensures v == View(p, pfs, folders)
  {
    var list: seq<FolderView> := [];
    var i := 0;
    while i < |pfs|
      invariant 0 <= i <= |pfs|
      invariant list == FolderViews(pfs[..i], folders)
    {
      assert pfs[..i + 1][..i] == pfs[..i];
      list := list + [FolderViewOf(folders[pfs[i].folderId])];
      i := i + 1;
    }
    assert pfs[..i] == pfs;
    v := ProductView(p.id, p.title, p.link, p.image, p.lprice, p.myprice, list);
    FolderViewsAt(pfs, folders, 0);
    forall i | 0 <= i < |pfs|
      ensures v.productFolderList[i] == FolderViewOf(folders[pfs[i].folderId])
    {
      FolderViewsAt(pfs, folders, i);
    }
  }
}
