/** LoadBitmapFromFile and CreateFontCollectionFromFile: chains of native
    stages threaded through one status variable, each stage run only while
    every earlier stage succeeded, with every intermediate handle released at
    the end and the caller's out-parameters written in place. */
module Loaders {
  import opened Native
  import opened Engine

  /** The answers of the native stages LoadBitmapFromFile runs, in order. */
  datatype BitmapNatives = BitmapNatives(
    decoder: Creation,     // CreateDecoderFromFilename
    frame: Creation,       // GetFrame(0)
    converter: Creation,   // CreateFormatConverter
    initialize: HResult,   // converter Initialize to 32bpp PBGRA
    bitmap: Creation)      // CreateBitmapFromWicBitmap
  {
    function Statuses(): seq<HResult> {
      [decoder.status, frame.status, converter.status, initialize, bitmap.status]
    }
  }

  const BitmapStages: seq<Api> :=
    [CreateDecoderFromFilename, GetFrame, CreateFormatConverter, InitializeConverter,
     CreateBitmapFromWicBitmap]

  /** The intermediate handles a bitmap load acquires when its first failing
      stage is k: decoder, frame and converter, each when its stage succeeded. */
  function BitmapAcquired(n: BitmapNatives, k: nat): seq<Handle> {
    (if k > 0 then Holding(n.decoder.Written(), Decoder) else []) +
    (if k > 1 then Holding(n.frame.Written(), FrameDecode) else []) +
    (if k > 2 then Holding(n.converter.Written(), FormatConverter) else [])
  }

  /** After stage `done` ran: the stages so far were issued in order, the
      status is that stage's, every earlier stage succeeded, and the local
      pointers and the out-parameter hold what the stages that ran wrote. */
  ghost predicate BitmapRan(n: BitmapNatives, done: nat, hr: HResult, apis: seq<Api>,
                            decoder: Ptr, source: Ptr, converter: Ptr,
                            bitmapIn: Ptr, bitmapOut: Ptr) {
    && done < 5
    && apis == BitmapStages[..done + 1]
    && hr == n.Statuses()[done]
    && (forall j :: 0 <= j < done ==> Succeeded(n.Statuses()[j]))
    && decoder == n.decoder.Written()
    && source == (if done >= 1 then n.frame.Written() else Null)
    && converter == (if done >= 2 then n.converter.Written() else Null)
    && bitmapOut == (if done >= 4 then n.bitmap.Written() else bitmapIn)
  }

  /** LoadBitmapFromFile(target, path, &bitmap). Without an imaging factory,
      E_FAIL and nothing else. Otherwise the stages run up to and including
      the first failing one, whose status is returned (the last stage's when
      none fails); the decoder, frame and converter are each released exactly
      when acquired; only the final stage writes the out-parameter. */
  method LoadBitmapFromFile(g: Globals, natives: BitmapNatives, bitmapIn: Ptr)
    returns (hr: HResult, bitmapOut: Ptr, apis: seq<Api>, released: seq<Handle>)
    ensures g.wicFactory == Null ==>
      hr == E_FAIL && bitmapOut == bitmapIn && apis == [] && released == []
    ensures g.wicFactory != Null ==>
      BitmapLoaded(natives, FirstFailure(natives.Statuses()), bitmapIn, hr, bitmapOut, apis, released)
    ensures Succeeded(hr) <==> g.wicFactory != Null && FirstFailure(natives.Statuses()) == 5
    ensures Succeeded(hr) ==> bitmapOut.Ref? && bitmapOut == natives.bitmap.Written()
  {
    if g.wicFactory == Null {
      return E_FAIL, bitmapIn, [], [];
    }
    var decoder, source, converter := Null, Null, Null;
    ghost var done := 0;
    bitmapOut := bitmapIn;
    apis := [CreateDecoderFromFilename];
    hr := natives.decoder.status;
    decoder := natives.decoder.Written();
    assert BitmapRan(natives, done, hr, apis, decoder, source, converter, bitmapIn, bitmapOut);
    if Succeeded(hr) {
      done := 1;
      apis := apis + [GetFrame];
      hr := natives.frame.status;
      source := natives.frame.Written();
    }
    assert BitmapRan(natives, done, hr, apis, decoder, source, converter, bitmapIn, bitmapOut);
    if Succeeded(hr) {
      done := 2;
      apis := apis + [CreateFormatConverter];
      hr := natives.converter.status;
      converter := natives.converter.Written();
    }
    assert BitmapRan(natives, done, hr, apis, decoder, source, converter, bitmapIn, bitmapOut);
    if Succeeded(hr) {
      done := 3;
      apis := apis + [InitializeConverter];
      hr := natives.initialize;
    }
    assert BitmapRan(natives, done, hr, apis, decoder, source, converter, bitmapIn, bitmapOut);
    if Succeeded(hr) {
      done := 4;
      apis := apis + [CreateBitmapFromWicBitmap];
      hr := natives.bitmap.status;
      bitmapOut := natives.bitmap.Written();
    }
    assert BitmapRan(natives, done, hr, apis, decoder, source, converter, bitmapIn, bitmapOut);
    assert Succeeded(hr) ==> done == 4;
    released := Holding(decoder, Decoder) + Holding(source, FrameDecode) +
                Holding(converter, FormatConverter);
    ghost var k := BitmapRanLoaded(natives, done, hr, apis, decoder, source, converter,
                                   bitmapIn, bitmapOut, released);
    FirstFailureIs(natives.Statuses(), k);
  }

  /** What a bitmap load with an imaging factory leaves, stated against the
      first failing stage k of the answers. */
  ghost predicate BitmapLoaded(n: BitmapNatives, k: nat, bitmapIn: Ptr, hr: HResult, bitmapOut: Ptr,
                               apis: seq<Api>, released: seq<Handle>) {
    var s := n.Statuses();
    && hr == s[if k < |s| then k else |s| - 1]
    && apis == BitmapStages[..if k < |s| then k + 1 else |s|]
    && bitmapOut == (if k >= 4 then n.bitmap.Written() else bitmapIn)
    && released == BitmapAcquired(n, k)
  }

  lemma BitmapRanLoaded(n: BitmapNatives, done: nat, hr: HResult, apis: seq<Api>,
                        decoder: Ptr, source: Ptr, converter: Ptr,
                        bitmapIn: Ptr, bitmapOut: Ptr, released: seq<Handle>)
    returns (k: nat)
    requires BitmapRan(n, done, hr, apis, decoder, source, converter, bitmapIn, bitmapOut)
    requires Succeeded(hr) ==> done == 4
    requires released == Holding(decoder, Decoder) + Holding(source, FrameDecode) +
                         Holding(converter, FormatConverter)
    ensures FailsFirstAt(n.Statuses(), k)
    ensures BitmapLoaded(n, k, bitmapIn, hr, bitmapOut, apis, released)
    ensures Succeeded(hr) <==> k == 5
  {
    var s := n.Statuses();
    k := if Succeeded(hr) then 5 else done;
    BitmapReleases(n, k, decoder, source, converter);
    if Succeeded(hr) {
      assert done == 4 && apis == BitmapStages[..5] && hr == s[4];
    } else {
      assert k == done < 5 && apis == BitmapStages[..k + 1] && hr == s[k];
    }
  }

  /** The pointers the bitmap chain left, read as the handles it acquired. */
  lemma BitmapReleases(n: BitmapNatives, k: nat, decoder: Ptr, source: Ptr, converter: Ptr)
    requires k <= 5
    requires var done := if k == 5 then 4 else k;
      && decoder == n.decoder.Written()
      && source == (if done >= 1 then n.frame.Written() else Null)
      && converter == (if done >= 2 then n.converter.Written() else Null)
    requires k < 5 ==> !Succeeded(n.Statuses()[k])
    ensures Holding(decoder, Decoder) + Holding(source, FrameDecode) +
            Holding(converter, FormatConverter) == BitmapAcquired(n, k)
  {
  }

  /** The answers of the native stages CreateFontCollectionFromFile runs. */
  datatype FontNatives = FontNatives(
    builder: Creation,     // CreateFontSetBuilder
    fontFile: Creation,    // CreateFontFileReference
    addFontFile: HResult,  // AddFontFile
    fontSet: Creation,     // CreateFontSet
    collection: Creation,  // CreateFontCollectionFromFontSet
    family: Creation,      // GetFontFamily(0)
    names: Creation,       // GetFamilyNames
    lengthStatus: HResult, // GetStringLength(0, &len)
    length: U32,           //   the length it writes
    getString: HResult,    // GetString(0, buffer, *BufSize)
    familyName: string)    //   what it writes into the buffer
  {
    function Statuses(): seq<HResult> {
      [builder.status, fontFile.status, addFontFile, fontSet.status, collection.status,
       family.status, names.status, lengthStatus]
    }
  }

  const FontStages: seq<Api> :=
    [CreateFontSetBuilder, CreateFontFileReference, AddFontFile, CreateFontSet,
     CreateFontCollectionFromFontSet, GetFontFamily, GetFamilyNames, GetStringLength]

  /** The intermediates a font load acquires when its first failing stage is
      k: builder, font file, font set, family and names, each when its stage
      succeeded (the collection is accounted for separately). */
  function FontAcquired(n: FontNatives, k: nat): seq<Handle> {
    (if k > 0 then Holding(n.builder.Written(), FontSetBuilder) else []) +
    (if k > 3 then Holding(n.fontSet.Written(), FontSet) else []) +
    (if k > 1 then Holding(n.fontFile.Written(), FontFile) else []) +
    (if k > 5 then Holding(n.family.Written(), FontFamily) else []) +
    (if k > 6 then Holding(n.names.Written(), LocalizedStrings) else [])
  }

  /** `len + 1` in unsigned 32-bit arithmetic. */
  function RequiredSize(len: U32): (n: U32)
    ensures len < 0xFFFF_FFFF ==> n == len + 1
    ensures len == 0xFFFF_FFFF ==> n == 0
  {
    (len + 1) % 0x1_0000_0000
  }

  /** The length the size check compares against: what GetStringLength wrote
      when it ran (k >= 7), otherwise the initial 0. */
  function CheckedLength(n: FontNatives, k: nat): U32 {
    if k >= 7 then n.length else 0
  }

  /** After stage `done` of the font chain ran: the stages so far were
      issued in order, the status is that stage's, every earlier stage
      succeeded, and the local pointers and the length hold what the stages
      that ran wrote. */
  ghost predicate FontRan(n: FontNatives, done: nat, hr: HResult, apis: seq<Api>,
                          builder: Ptr, fontFile: Ptr, fontSet: Ptr, collection: Ptr,
                          family: Ptr, names: Ptr, len: U32) {
    && done < 8
    && apis == FontStages[..done + 1]
    && hr == n.Statuses()[done]
    && (forall j :: 0 <= j < done ==> Succeeded(n.Statuses()[j]))
    && builder == n.builder.Written()
    && fontFile == (if done >= 1 then n.fontFile.Written() else Null)
    && fontSet == (if done >= 3 then n.fontSet.Written() else Null)
    && collection == (if done >= 4 then n.collection.Written() else Null)
    && family == (if done >= 5 then n.family.Written() else Null)
    && names == (if done >= 6 then n.names.Written() else Null)
    && len == (if done >= 7 then n.length else 0)
  }

  /** What a font load returns and writes, stated against the first failing
      stage k: the size hint, the status, the calls issued, the buffer and
      the collection out-parameter. */
  ghost predicate FontOutputs(n: FontNatives, k: nat, collectionIn: Ptr, bufferIn: string, bufSizeIn: U32,
                              hr: HResult, collectionOut: Ptr, bufferOut: string, bufSizeOut: U32,
                              apis: seq<Api>) {
    var s := n.Statuses();
    var tooSmall := bufSizeIn <= CheckedLength(n, k);
    && bufSizeOut == (if tooSmall then RequiredSize(CheckedLength(n, k)) else bufSizeIn)
    && hr == (if tooSmall then E_FAIL else if k < |s| then s[k] else n.getString)
    && apis == FontStages[..if k < |s| then k + 1 else |s|] +
               (if !tooSmall && k == |s| then [GetString] else [])
    && bufferOut == (if !tooSmall && k == |s| then n.familyName else bufferIn)
    && collectionOut == (if Succeeded(hr) then n.collection.Written() else collectionIn)
  }

  /** What a font load releases: every intermediate it acquired, and the
      collection too when the load failed. */
  ghost predicate FontReleased(n: FontNatives, k: nat, hr: HResult, released: seq<Handle>) {
    released == FontAcquired(n, k) +
      (if !Succeeded(hr) && k > 4 then Holding(n.collection.Written(), FontCollection) else [])
  }

  ghost predicate FontLoaded(n: FontNatives, k: nat, collectionIn: Ptr, bufferIn: string, bufSizeIn: U32,
                             hr: HResult, collectionOut: Ptr, bufferOut: string, bufSizeOut: U32,
                             apis: seq<Api>, released: seq<Handle>) {
    && FontOutputs(n, k, collectionIn, bufferIn, bufSizeIn, hr, collectionOut, bufferOut, bufSizeOut, apis)
    && FontReleased(n, k, hr, released)
  }

  /** CreateFontCollectionFromFile(factory, path, &collection, buffer, &bufSize).
      The stages run up to the first failing one. Then, whatever happened
      before, a buffer size not above the length (0 when the length was not
      read) is replaced by length + 1 and forces E_FAIL, and GetString is
      skipped. The buffer is written only by GetString. Every intermediate is
      released exactly when acquired; the collection is released on failure
      and handed to the caller, as the only write of that out-parameter, on
      success. */
  method CreateFontCollectionFromFile(natives: FontNatives, collectionIn: Ptr,
                                      bufferIn: string, bufSizeIn: U32)
    returns (hr: HResult, collectionOut: Ptr, bufferOut: string, bufSizeOut: U32,
             apis: seq<Api>, released: seq<Handle>)
    ensures FontLoaded(natives, FirstFailure(natives.Statuses()), collectionIn, bufferIn, bufSizeIn,
                       hr, collectionOut, bufferOut, bufSizeOut, apis, released)
    ensures Succeeded(hr) <==>
      FirstFailure(natives.Statuses()) == 8 && natives.length < bufSizeIn && Succeeded(natives.getString)
    ensures Succeeded(hr) ==> collectionOut.Ref?
  {
    var builder: Ptr, fontSet: Ptr, fontFile: Ptr, collection: Ptr, family: Ptr, names: Ptr, len: U32;
    ghost var done;
    hr, apis, builder, fontFile, fontSet, collection, family, names, len, done := FontChain(natives);
    collectionOut, bufferOut, bufSizeOut := collectionIn, bufferIn, bufSizeIn;
    ghost var chainApis, chainHr := apis, hr;
    if bufSizeOut <= len {
      bufSizeOut := RequiredSize(len);
      hr := E_FAIL;
    }
    ghost var checked := hr;
    assert checked == if bufSizeIn <= len then E_FAIL else chainHr;
    if Succeeded(hr) {
      apis := apis + [GetString];
      hr := natives.getString;
      bufferOut := natives.familyName;
    }
    assert hr == (if Succeeded(checked) then natives.getString else checked);
    assert apis == chainApis + (if Succeeded(checked) then [GetString] else []);
    released := Holding(builder, FontSetBuilder) + Holding(fontSet, FontSet) +
                Holding(fontFile, FontFile) + Holding(family, FontFamily) +
                Holding(names, LocalizedStrings);
    if !Succeeded(hr) {
      released := released + Holding(collection, FontCollection);
    }
    if Succeeded(hr) {
      collectionOut := collection;
    }
    ghost var k := FontRanLoaded(natives, done, chainHr, chainApis, builder, fontFile, fontSet,
                                 collection, family, names, len, collectionIn, bufferIn, bufSizeIn,
                                 hr, collectionOut, bufferOut, bufSizeOut, apis, released);
    FirstFailureIs(natives.Statuses(), k);
  }

  /** The status chain of CreateFontCollectionFromFile, from CreateFontSetBuilder
      to GetStringLength: each stage runs only while hr is a success. */
  method FontChain(natives: FontNatives)
    returns (hr: HResult, apis: seq<Api>, builder: Ptr, fontFile: Ptr, fontSet: Ptr,
             collection: Ptr, family: Ptr, names: Ptr, len: U32, ghost done: nat)
    ensures FontRan(natives, done, hr, apis, builder, fontFile, fontSet, collection, family, names, len)
    ensures Succeeded(hr) ==> done == 7
  {
    fontSet, fontFile, collection, family, names := Null, Null, Null, Null, Null;
    done, len := 0, 0;
    apis := [CreateFontSetBuilder];
    hr := natives.builder.status;
    builder := natives.builder.Written();
    assert FontRan(natives, done, hr, apis, builder, fontFile, fontSet, collection, family, names, len);
    if Succeeded(hr) {
      done := 1;
      apis := apis + [CreateFontFileReference];
      hr := natives.fontFile.status;
      fontFile := natives.fontFile.Written();
    }
    assert FontRan(natives, done, hr, apis, builder, fontFile, fontSet, collection, family, names, len);
    if Succeeded(hr) {
      done := 2;
      apis := apis + [AddFontFile];
      hr := natives.addFontFile;
    }
    assert FontRan(natives, done, hr, apis, builder, fontFile, fontSet, collection, family, names, len);
    if Succeeded(hr) {
      done := 3;
      apis := apis + [CreateFontSet];
      hr := natives.fontSet.status;
      fontSet := natives.fontSet.Written();
    }
    assert FontRan(natives, done, hr, apis, builder, fontFile, fontSet, collection, family, names, len);
    if Succeeded(hr) {
      done := 4;
      apis := apis + [CreateFontCollectionFromFontSet];
      hr := natives.collection.status;
      collection := natives.collection.Written();
    }
    assert FontRan(natives, done, hr, apis, builder, fontFile, fontSet, collection, family, names, len);
    if Succeeded(hr) {
      done := 5;
      apis := apis + [GetFontFamily];
      hr := natives.family.status;
      family := natives.family.Written();
    }
    assert FontRan(natives, done, hr, apis, builder, fontFile, fontSet, collection, family, names, len);
    if Succeeded(hr) {
      done := 6;
      apis := apis + [GetFamilyNames];
      hr := natives.names.status;
      names := natives.names.Written();
    }
    assert FontRan(natives, done, hr, apis, builder, fontFile, fontSet, collection, family, names, len);
    if Succeeded(hr) {
      done := 7;
      apis := apis + [GetStringLength];
      hr := natives.lengthStatus;
      len := natives.length;
    }
  }

  /** The size check, GetString, the releases and the out-parameter write
      that follow the chain, stated against its first failing stage. */
  lemma FontRanLoaded(n: FontNatives, done: nat, chainHr: HResult, chainApis: seq<Api>,
                      builder: Ptr, fontFile: Ptr, fontSet: Ptr, collection: Ptr,
                      family: Ptr, names: Ptr, len: U32,
                      collectionIn: Ptr, bufferIn: string, bufSizeIn: U32,
                      hr: HResult, collectionOut: Ptr, bufferOut: string, bufSizeOut: U32,
                      apis: seq<Api>, released: seq<Handle>)
    returns (k: nat)
    requires FontRan(n, done, chainHr, chainApis, builder, fontFile, fontSet, collection,
                     family, names, len)
    requires Succeeded(chainHr) ==> done == 7
    requires bufSizeOut == if bufSizeIn <= len then RequiredSize(len) else bufSizeIn
    requires var checked := if bufSizeIn <= len then E_FAIL else chainHr;
      && hr == (if Succeeded(checked) then n.getString else checked)
      && apis == chainApis + (if Succeeded(checked) then [GetString] else [])
      && bufferOut == (if Succeeded(checked) then n.familyName else bufferIn)
    requires released == Holding(builder, FontSetBuilder) + Holding(fontSet, FontSet) +
                         Holding(fontFile, FontFile) + Holding(family, FontFamily) +
                         Holding(names, LocalizedStrings) +
                         (if !Succeeded(hr) then Holding(collection, FontCollection) else [])
    requires collectionOut == if Succeeded(hr) then collection else collectionIn
    ensures FailsFirstAt(n.Statuses(), k)
    ensures FontLoaded(n, k, collectionIn, bufferIn, bufSizeIn,
                       hr, collectionOut, bufferOut, bufSizeOut, apis, released)
    ensures Succeeded(hr) <==> k == 8 && n.length < bufSizeIn && Succeeded(n.getString)
    ensures Succeeded(hr) ==> collectionOut.Ref?
  {
    k := if Succeeded(chainHr) then 8 else done;
    var s := n.Statuses();
    assert FailsFirstAt(s, k);
    FontReleases(n, k, builder, fontFile, fontSet, collection, family, names);
    assert FontReleased(n, k, hr, released);
    ChainEnd(n, done, chainHr, chainApis, builder, fontFile, fontSet, collection, family, names, len, k);
    FontChecked(n, k, chainHr, chainApis, len, collection, collectionIn, bufferIn, bufSizeIn,
                hr, collectionOut, bufferOut, bufSizeOut, apis);
  }

  /** What the chain hands on to the size check, stated against its first
      failing stage k. */
  lemma ChainEnd(n: FontNatives, done: nat, chainHr: HResult, chainApis: seq<Api>,
                 builder: Ptr, fontFile: Ptr, fontSet: Ptr, collection: Ptr,
                 family: Ptr, names: Ptr, len: U32, k: nat)
    requires FontRan(n, done, chainHr, chainApis, builder, fontFile, fontSet, collection,
                     family, names, len)
    requires Succeeded(chainHr) ==> done == 7
    requires k == if Succeeded(chainHr) then 8 else done
    ensures k < 8 ==> chainHr == n.Statuses()[k] && chainApis == FontStages[..k + 1]
    ensures k == 8 ==> Succeeded(chainHr) && chainApis == FontStages
    ensures len == CheckedLength(n, k)
    ensures k == 8 ==> collection == n.collection.Written()
  {
    assert FontStages[..8] == FontStages;
  }

  /** The size check and GetString after a chain whose first failing stage
      is k, and the write of the collection out-parameter. */
  lemma FontChecked(n: FontNatives, k: nat, chainHr: HResult, chainApis: seq<Api>, len: U32,
                    collection: Ptr, collectionIn: Ptr, bufferIn: string, bufSizeIn: U32,
                    hr: HResult, collectionOut: Ptr, bufferOut: string, bufSizeOut: U32,
                    apis: seq<Api>)
    requires FailsFirstAt(n.Statuses(), k)
    requires k < 8 ==> chainHr == n.Statuses()[k] && chainApis == FontStages[..k + 1]
    requires k == 8 ==> Succeeded(chainHr) && chainApis == FontStages
    requires len == CheckedLength(n, k)
    requires k == 8 ==> collection == n.collection.Written()
    requires bufSizeOut == if bufSizeIn <= len then RequiredSize(len) else bufSizeIn
    requires var checked := if bufSizeIn <= len then E_FAIL else chainHr;
      && hr == (if Succeeded(checked) then n.getString else checked)
      && apis == chainApis + (if Succeeded(checked) then [GetString] else [])
      && bufferOut == (if Succeeded(checked) then n.familyName else bufferIn)
    requires collectionOut == if Succeeded(hr) then collection else collectionIn
    ensures FontOutputs(n, k, collectionIn, bufferIn, bufSizeIn,
                        hr, collectionOut, bufferOut, bufSizeOut, apis)
    ensures Succeeded(hr) <==> k == 8 && n.length < bufSizeIn && Succeeded(n.getString)
    ensures Succeeded(hr) ==> collectionOut.Ref?
  {
    var s := n.Statuses();
    if bufSizeIn <= len {
      assert hr == E_FAIL && apis == chainApis && bufferOut == bufferIn;
    } else if k < 8 {
      assert hr == s[k] && apis == FontStages[..k + 1];
    } else {
      assert hr == n.getString && apis == FontStages + [GetString];
      assert Succeeded(s[4]);
    }
  }

  /** The pointers the chain left, read as the handles it acquired. */
  lemma FontReleases(n: FontNatives, k: nat, builder: Ptr, fontFile: Ptr, fontSet: Ptr,
                     collection: Ptr, family: Ptr, names: Ptr)
    requires k <= 8 && (k < 8 ==> !Succeeded(n.Statuses()[k]))
    requires var done := if k == 8 then 7 else k;
      && builder == n.builder.Written()
      && fontFile == (if done >= 1 then n.fontFile.Written() else Null)
      && fontSet == (if done >= 3 then n.fontSet.Written() else Null)
      && collection == (if done >= 4 then n.collection.Written() else Null)
      && family == (if done >= 5 then n.family.Written() else Null)
      && names == (if done >= 6 then n.names.Written() else Null)
    ensures Holding(builder, FontSetBuilder) + Holding(fontSet, FontSet) +
            Holding(fontFile, FontFile) + Holding(family, FontFamily) +
            Holding(names, LocalizedStrings) == FontAcquired(n, k)
    ensures Holding(collection, FontCollection)
            == (if k > 4 then Holding(n.collection.Written(), FontCollection) else [])
  {
  }

  /** The query-the-size protocol: a call whose buffer is not above the
      family-name length fails with E_FAIL and writes nothing but the
      required size length + 1; calling again with that size passes the
      check and reads the name. */
  lemma SizeQueryRoundTrip(n: FontNatives, collectionIn: Ptr, bufferIn: string, bufSize: U32,
                           hr1: HResult, c1: Ptr, b1: string, s1: U32, a1: seq<Api>,
                           hr2: HResult, c2: Ptr, b2: string, s2: U32, a2: seq<Api>)
    requires FailsFirstAt(n.Statuses(), 8) && bufSize <= n.length < 0xFFFF_FFFF
    requires FontOutputs(n, 8, collectionIn, bufferIn, bufSize, hr1, c1, b1, s1, a1)
    requires FontOutputs(n, 8, c1, b1, s1, hr2, c2, b2, s2, a2)
    ensures hr1 == E_FAIL && s1 == n.length + 1
    ensures b1 == bufferIn && c1 == collectionIn && GetString !in a1
    ensures s2 == s1 && hr2 == n.getString && b2 == n.familyName && GetString in a2
    ensures Succeeded(hr2) ==> c2 == n.collection.Written() && c2.Ref?
  {
    assert Succeeded(n.Statuses()[4]);
    assert a1 == FontStages;
    assert a2 == FontStages + [GetString];
  }

  /** A load that fails at or after GetFontFamily, so after the collection
      was built, gives the collection back: the caller is left holding nothing. */
  lemma FailedQueryReleasesCollection(n: FontNatives, k: nat, hr: HResult, released: seq<Handle>)
    requires FailsFirstAt(n.Statuses(), k) && k > 4 && !Succeeded(hr)
    requires FontReleased(n, k, hr, released)
    ensures n.collection.Made? && Handle(FontCollection, n.collection.obj) in released
  {
    assert n.collection.Made? by {
      assert Succeeded(n.Statuses()[4]);
    }
    assert Holding(n.collection.Written(), FontCollection) == [Handle(FontCollection, n.collection.obj)];
  }

  /** When a stage before GetStringLength fails, the length stays 0: a
      non-zero buffer size returns the failing stage's own status, while a
      zero size is reported as too small (required size 1) and E_FAIL
      replaces that status. */
  lemma EarlyFailureStatus(n: FontNatives, collectionIn: Ptr, bufferIn: string, bufSize: U32,
                           hr: HResult, c: Ptr, b: string, size: U32, apis: seq<Api>, k: nat)
    requires k < 7 && FailsFirstAt(n.Statuses(), k)
    requires FontOutputs(n, k, collectionIn, bufferIn, bufSize, hr, c, b, size, apis)
    ensures bufSize > 0 ==> hr == n.Statuses()[k] && size == bufSize
    ensures bufSize == 0 ==> hr == E_FAIL && size == 1
    ensures !Succeeded(hr) && c == collectionIn && b == bufferIn && GetStringLength !in apis
  {
    var early := FontStages[..7];
    assert GetStringLength !in early;
    assert apis == early[..k + 1];
    assert forall x :: x in early[..k + 1] ==> x in early;
  }
}
