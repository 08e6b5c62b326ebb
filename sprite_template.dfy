/** Sprite sub-rectangle templates of the multi-sprites transform (SpriteTemplate). A template
    is an immutable record; `GetFrom` copies its window out of a source image. Pixels are
    opaque integers indexed `[x, y]`, so an image's `Length0` is its width and `Length1` its
    height. */
module Multisprites {
  import opened Wrappers

  datatype TemplateError = MissingKey(key: string)

  /** The JSON keys the JSON constructor reads, in the order it reads them. */
  const TemplateKeys: seq<string> := ["x", "y", "width", "height"]

  /** The record built by the primary constructor: every field stored as given. */
  datatype SpriteTemplate = SpriteTemplate(suffix: string, x: int, y: int, width: int, height: int)
  {
    /** The JSON constructor. The object is a map from key to integer; a missing key fails
        with "'<key>' is empty", and the keys are checked in the order x, y, width, height. */
    static function FromJson(suffix: string, json: map<string, int>): (r: Result<SpriteTemplate, TemplateError>)
      ensures r.Success? <==> "x" in json && "y" in json && "width" in json && "height" in json
      ensures r.Success? ==>
        r.value == SpriteTemplate(suffix, json["x"], json["y"], json["width"], json["height"])
      ensures r.Failure? ==>
        exists p :: 0 <= p < |TemplateKeys| && r.error == MissingKey(TemplateKeys[p]) &&
          TemplateKeys[p] !in json && forall q :: 0 <= q < p ==> TemplateKeys[q] in json
    {
      if "x" !in json then assert TemplateKeys[0] == "x"; Failure(MissingKey("x"))
      else if "y" !in json then assert TemplateKeys[1] == "y"; Failure(MissingKey("y"))
      else if "width" !in json then assert TemplateKeys[2] == "width"; Failure(MissingKey("width"))
      else if "height" !in json then assert TemplateKeys[3] == "height"; Failure(MissingKey("height"))
      else Success(SpriteTemplate(suffix, json["x"], json["y"], json["width"], json["height"]))
    }

    /** The window lies inside an image of the given size and is not empty. */
    predicate FitsIn(imageWidth: int, imageHeight: int) {
      0 < width && 0 < height &&
      0 <= x && x + width <= imageWidth &&
      0 <= y && y + height <= imageHeight
    }

    /** Copies the `width` by `height` window at (x, y) of `source` into a fresh image. */
    method GetFrom(source: array2<int>) returns (dest: array2<int>)
      requires FitsIn(source.Length0, source.Length1)
      ensures fresh(dest)
      ensures dest.Length0 == width && dest.Length1 == height
      ensures forall i, j :: 0 <= i < width && 0 <= j < height ==> dest[i, j] == source[x + i, y + j]
      ensures forall i, j :: 0 <= i < source.Length0 && 0 <= j < source.Length1 ==> source[i, j] == old(source[i, j])
    {
      dest := new int[width, height];
      for i := 0 to width
        invariant forall i', j :: 0 <= i' < i && 0 <= j < height ==> dest[i', j] == source[x + i', y + j]
      {
        for j := 0 to height
          invariant forall i', j' :: 0 <= i' < i && 0 <= j' < height ==> dest[i', j'] == source[x + i', y + j']
          invariant forall j' :: 0 <= j' < j ==> dest[i, j'] == source[x + i, y + j']
        {
          dest[i, j] := source[x + i, y + j];
        }
      }
    }
  }

  /** The JSON constructor given all four keys builds the same record as the primary
      constructor given the same values. */
  lemma ConstructorsAgree(suffix: string, x: int, y: int, width: int, height: int)
    ensures SpriteTemplate.FromJson(suffix, map["x" := x, "y" := y, "width" := width, "height" := height])
            == Success(SpriteTemplate(suffix, x, y, width, height))
  {
  }
}
